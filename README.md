# Cover-letter composer and PDF story builder, modelled in Dafny

This project models the two tools of CoverLetterGenerator_v2 that hold string
logic of their own:

- `CoverLetterTool` composes a cover letter. It picks the terms of two fixed
  vocabularies that occur in both the lower-cased résumé and the lower-cased
  job description, keeping vocabulary order. At most five of them go into an
  experience sentence and at most three into a key-skills phrase, and filler
  text is used when nothing matches. The tool then fills a letter template
  with a chain of `replace` calls and reports whether the letter was saved.
- `PDFGeneratorTool` turns text into the list of paragraphs and spacers (the
  "story") given to the PDF library. `create_pdf_from_text` cuts the text
  at each occurrence of `\n\n` and keeps the chunks that are not blank
  after stripping, under an optional title. A cover
  letter is reflowed line by line into paragraphs. `text_to_pdf` picks a
  default output path, and the tool records its last output file.

Modules:

- `Text` holds the Python `str` operations the tools use, on ASCII text:
  `lower`, `title`, `strip`, `in`, `replace`, `split`, `join`, and
  `os.path.basename`, `dirname` and `splitext`.
- `Template` reads a template as literal pieces and `{{name}}` holes. It
  proves what a chain of `replace` calls does to such a template.
- `Wording` holds the tool's vocabularies, template text and replies;
  `WordingFacts` proves facts about those constants.
- `CoverLetter` holds the keyword scans as loop methods proved against
  functions, the letter assembly, the save step and the class
  `CoverLetterTool` with its template field.
- `PdfWording` holds the PDF tool's fixed replies.
- `PdfGenerator` holds the two story-building loops, each proved against a
  specification function, and the class `PdfGeneratorTool` with its
  `lastGeneratedFile` field.

File-system calls, reading a file and the PDF library's build step are
outside the model. They enter as parameters that say how the step ended:
`WriteOutcome`, `Outcome`, `ReadOutcome` and a `build` function from a path
and a story to a `BuildOutcome`. Whether ReportLab could be imported is the
tool's constant field `reportlabAvailable`.

## Model

| member | source | states |
|---|---|---|
| Text.Lower | custom_tools/CoverLetterTool.py:72-73 | `lower()` keeps the length and lower-cases each ASCII capital; every other character is left alone |
| Text.LowerAppend | custom_tools/CoverLetterTool.py:72-73 | lower-casing a concatenation lower-cases each part |
| Text.Title | custom_tools/CoverLetterTool.py:106 | `title()` keeps the length and non-letters; it capitalises the first letter of each run of letters, lower-cases the rest, and agrees with the input up to case |
| Text.StripSpec | custom_tools/PDFGeneratorTool.py:80-82 | `strip()` removes only leading and trailing whitespace, and the result neither starts nor ends with whitespace |
| Text.StripEmptyIff | custom_tools/PDFGeneratorTool.py:80 | `s.strip()` is empty exactly when `s` is all whitespace |
| Text.StripPadded | custom_tools/PDFGeneratorTool.py:183 | whitespace around a text with non-space ends is removed and nothing else |
| Text.StripNoChar | custom_tools/PDFGeneratorTool.py:183 | stripping never brings in a character that was not there |
| Text.ContainsExtend | custom_tools/CoverLetterTool.py:85 | a substring stays a substring when text is added on either side |
| Text.ContainsTransitive | custom_tools/CoverLetterTool.py:85 | a substring of a substring is a substring |
| Text.ReplaceAbsent | custom_tools/CoverLetterTool.py:40-53 | `replace` returns a text that lacks the pattern unchanged |
| Text.ReplaceAppend | custom_tools/CoverLetterTool.py:40-53 | when no occurrence crosses the seam, `replace` on a concatenation is `replace` on each part |
| Text.ReplaceLeading | custom_tools/CoverLetterTool.py:40-53 | an occurrence at the start is replaced and scanning goes on after it, not into the inserted text |
| Text.ReplaceChar | custom_tools/PDFGeneratorTool.py:82 | `replace('\n', ' ')` keeps the length and turns exactly the line breaks into spaces |
| Text.SplitJoin | custom_tools/PDFGeneratorTool.py:77 | joining the pieces of `split(sep)` with `sep` gives back the text |
| Text.SplitPiecesFree | custom_tools/PDFGeneratorTool.py:77 | no piece of `split(sep)` contains `sep` |
| Text.SplitPiecesNoChar | custom_tools/PDFGeneratorTool.py:179 | a piece of a split holds no character the text lacks |
| Text.JoinSplit | custom_tools/CoverLetterTool.py:89 | splitting a `join` of pieces that lack the separator's first character gives back the pieces |
| Text.JoinNoChar | custom_tools/CoverLetterTool.py:89 | a join holds no character that the pieces and the separator all lack |
| Text.JoinEnds | custom_tools/PDFGeneratorTool.py:190 | a join of non-empty pieces is empty only for no pieces; it starts with the first piece's first character and ends with the last piece's last character |
| Text.JoinSnoc | custom_tools/PDFGeneratorTool.py:190 | joining one more piece appends the separator and that piece |
| Text.Basename | custom_tools/PDFGeneratorTool.py:233 | `os.path.basename` is a suffix of the path that holds no `/`, and when it is shorter than the path the character just before it is a `/`, so it is all that follows the last `/` |
| Text.Dirname | custom_tools/PDFGeneratorTool.py:34 | `os.path.dirname` is empty exactly when the path has no `/` |
| Text.Splitext | custom_tools/PDFGeneratorTool.py:221 | `os.path.splitext` cuts the path into root and extension; the extension is empty or is one dot followed by neither a dot nor a `/` |
| Text.Take | custom_tools/CoverLetterTool.py:89 | a slice `[:n]` is the prefix of length `min(n, len)` |
| Text.NatToString | custom_tools/PDFGeneratorTool.py:94 | a byte count prints as decimal digits without a leading zero whose decimal value is the count |
| Template.TokenOccurrence | custom_tools/CoverLetterTool.py:40-53 | a `{{name}}` token can start inside another token only at its first character, and only when the names agree |
| Template.OtherSlotReplace | custom_tools/CoverLetterTool.py:40-53 | replacing one placeholder leaves a different placeholder in front untouched |
| Template.ValueHoldsNoToken | custom_tools/CoverLetterTool.py:40-53 | a value without `{{` holds no placeholder |
| Template.NoDoubleBraceAppend | custom_tools/CoverLetterTool.py:48 | two texts without `{{` stay free of it when concatenated, unless the seam joins two `{` |
| Template.ReplaceRender | custom_tools/CoverLetterTool.py:40-53 | in a well-formed template, replacing `{{name}}` by a value without `{{` fills exactly the holes of that name and keeps the template well formed |
| Template.RenderClosed | custom_tools/CoverLetterTool.py:40-53 | once every hole is filled, no `{{` is left |
| Template.RenderEnds | custom_tools/CoverLetterTool.py:12-25 | the rendered text starts with the first literal piece and ends with the last |
| Template.ClosedRender | custom_tools/CoverLetterTool.py:12-53 | a fully filled, well-formed template holds no `{{` and keeps its first and last literal pieces |
| CoverLetter.TechKeywordsClean | custom_tools/CoverLetterTool.py:76-80 | every broad keyword is non-empty and holds neither `{` nor `,` |
| CoverLetter.TechKeywordsDistinct | custom_tools/CoverLetterTool.py:76-80 | the 19 broad keywords are pairwise different |
| CoverLetter.ProgLangsPlain | custom_tools/CoverLetterTool.py:103 | every language is non-empty, starts with a small letter and holds neither `{` nor `,` |
| CoverLetter.ProgLangsDistinct | custom_tools/CoverLetterTool.py:103 | the languages are pairwise different |
| CoverLetter.TechsPlain | custom_tools/CoverLetterTool.py:109 | every technology is non-empty, starts with a small letter and holds neither `{` nor `,` |
| CoverLetter.TechsDistinct | custom_tools/CoverLetterTool.py:109 | the technologies are pairwise different |
| CoverLetter.MatchesMember | custom_tools/CoverLetterTool.py:84-86 | a term is matched if and only if it is in the vocabulary and occurs in both lower-cased texts |
| CoverLetter.MatchesInOrder | custom_tools/CoverLetterTool.py:84-86 | the matched terms are a subsequence of the vocabulary, so they keep its order |
| CoverLetter.MatchesDistinct | custom_tools/CoverLetterTool.py:84-86 | a vocabulary without repeats gives matches without repeats |
| CoverLetter.MatchesGrowWithJob | custom_tools/CoverLetterTool.py:84-86 | appending to the job text keeps every earlier match, in order |
| CoverLetter.JobExtensionKeepsMatches | custom_tools/CoverLetterTool.py:84-112 | appending to the job description keeps both uncapped lists as subsequences of the new ones: no broad keyword and no skill is dropped, order is kept, and neither list gets shorter |
| CoverLetter.JavascriptImpliesJava | custom_tools/CoverLetterTool.py:76-106 | when `javascript` is in both texts, `java` is a matched keyword and `Java` a matched skill |
| CoverLetter.TitleAll | custom_tools/CoverLetterTool.py:106 | each matched language is title-cased, position by position |
| CoverLetter.CoverLetterTool.ExtractRelevantExperience | custom_tools/CoverLetterTool.py:69-92 | the keyword loop yields the experience sentence of the matched broad keywords |
| CoverLetter.ExperienceSectionNames | custom_tools/CoverLetterTool.py:88-92 | without a match the sentence is the filler; otherwise it is the fixed lead, then up to five keywords, then the fixed tail, and the lead and tail bracket exactly the first five matches, comma-separated |
| CoverLetter.CoverLetterTool.ExtractKeySkills | custom_tools/CoverLetterTool.py:94-117 | the two loops yield the key-skills phrase of the matched languages, title-cased, then the matched technologies |
| CoverLetter.SkillListLanguagesFirst | custom_tools/CoverLetterTool.py:100-112 | the capitalised entries form a prefix: they are the matched languages title-cased in vocabulary order, and the technologies follow verbatim |
| CoverLetter.TitleOfLowerWord | custom_tools/CoverLetterTool.py:106 | lower-casing a title-cased word without capitals gives it back |
| CoverLetter.KeySkillsNames | custom_tools/CoverLetterTool.py:114-117 | without a skill the phrase is the filler; otherwise its comma-separated names are the first three skills |
| CoverLetter.ExperienceSectionNoBrace | custom_tools/CoverLetterTool.py:88-92 | the experience sentence holds no `{` |
| CoverLetter.KeySkillsNoBrace | custom_tools/CoverLetterTool.py:114-117 | the key-skills phrase holds no `{` |
| CoverLetter.LowerNoDoubleBrace | custom_tools/CoverLetterTool.py:48 | lower-casing never makes a `{{` |
| CoverLetter.LetterValuesPlain | custom_tools/CoverLetterTool.py:33-52 | the defaults for an empty company or position, the experience sentence, the motivation clause and the skills phrase hold no `{{` when company and position do not |
| CoverLetter.LetterFromPlainTemplate | custom_tools/CoverLetterTool.py:40-53 | a template without `{{` comes back from the replace chain unchanged |
| CoverLetter.TemplateWellFormed | custom_tools/CoverLetterTool.py:12-25 | the built-in template is literal text with holes `position`, `company`, `relevant_experience`, `why_company`, `key_skills`, `company` |
| CoverLetter.DefaultTemplateShape | custom_tools/CoverLetterTool.py:12-25 | the stripped built-in template is its literal pieces and placeholders in that order |
| CoverLetter.DefaultFillingSteps | custom_tools/CoverLetterTool.py:40-53 | the five replacements fill all six holes, the company into both of its holes |
| CoverLetter.FillLayout | custom_tools/CoverLetterTool.py:40-53 | for any literal pieces laid out like the built-in template, the replace chain fills every hole with its value |
| CoverLetter.FilledLayout | custom_tools/CoverLetterTool.py:40-53 | for such a template the letter has no `{{` and keeps its first and last literal pieces |
| CoverLetter.LayoutLetter | custom_tools/CoverLetterTool.py:33-53 | the letter composed from a résumé, job text, company and position without `{{` is that template with every hole filled |
| CoverLetter.DefaultLetter | custom_tools/CoverLetterTool.py:12-53 | with the built-in template no `{{` token is left; both `{{company}}` holes are filled; the greeting opens the letter and the `[Your Name]` sign-off ends it |
| CoverLetter.ReportShape | custom_tools/CoverLetterTool.py:56-67 | every reply starts with the same words and ends with a blank line and the whole letter; the text between says whether no file was asked for, the file was saved, or saving failed |
| CoverLetter.SaveAsWrittenCounterexample | custom_tools/CoverLetterTool.py:59 | as written, saving `cover_letter.txt` fails on `os.makedirs('')`; corrected, it is saved |
| CoverLetter.BareFileNameNeverSavedAsWritten | custom_tools/CoverLetterTool.py:59 | as written, any path without `/` fails to save |
| CoverLetter.BareFileNameSaved | custom_tools/CoverLetterTool.py:56-62 | corrected, a path without `/` is saved exactly when writing it works |
| CoverLetter.SaveAgreesOnDirectories | custom_tools/CoverLetterTool.py:56-65 | the correction changes the outcome only for paths without `/` |
| CoverLetter.BareFileNameReport | custom_tools/CoverLetterTool.py:56-65 | for a non-empty path without `/`, the reply as written is always the "failed to save" report with the `makedirs('')` error, while the corrected save reports how writing the file ended |
| CoverLetter.CoverLetterTool.GenerateCoverLetter | custom_tools/CoverLetterTool.py:27-67 | the reply is the report, for the outcome of the corrected save step `Save` (see Findings), of the current template filled with the defaults, the experience sentence, the motivation clause and the skills phrase |
| CoverLetter.CoverLetterTool.constructor | custom_tools/CoverLetterTool.py:11-25 | a new tool holds the built-in template |
| CoverLetter.CoverLetterTool.GetTemplate | custom_tools/CoverLetterTool.py:137-139 | the reply is the fixed header followed by the current template verbatim |
| CoverLetter.CoverLetterTool.SetTemplate | custom_tools/CoverLetterTool.py:141-144 | any text becomes the template, `get_template` then returns the header followed by it, and the reply is fixed |
| WordingFacts.TemplateEnds | custom_tools/CoverLetterTool.py:12-25 | the built-in template text neither starts nor ends with whitespace, so `.strip()` leaves it whole |
| PdfGenerator.PdfGeneratorTool.BuildTextStory | custom_tools/PDFGeneratorTool.py:68-84 | the chunk loop builds exactly the text story: title entries, then the entries of the chunks |
| PdfGenerator.TextStoryTitle | custom_tools/PDFGeneratorTool.py:72-74 | the title paragraph and its 12-point spacer come first exactly when the title is not empty; no other paragraph is in the title style |
| PdfGenerator.KeptMember | custom_tools/PDFGeneratorTool.py:79-80 | a chunk is kept if and only if its `strip()` is not empty |
| PdfGenerator.KeptAppend | custom_tools/PDFGeneratorTool.py:79-80 | keeping chunks preserves their order |
| PdfGenerator.ChunkItemsLayout | custom_tools/PDFGeneratorTool.py:77-84 | the body has two entries per kept chunk, in order: the cleaned chunk in body style, then a 6-point spacer |
| PdfGenerator.CleanSolid | custom_tools/PDFGeneratorTool.py:82 | a kept chunk, cleaned, is non-empty, on one line and stripped; it is the stripped chunk with each line break turned into a space |
| PdfGenerator.ChunkItemsBody | custom_tools/PDFGeneratorTool.py:77-84 | every body paragraph is in the body style and solid |
| PdfGenerator.PdfGeneratorTool.ReflowCoverLetter | custom_tools/PDFGeneratorTool.py:179-196 | the line loop with its accumulator builds exactly one letter-body paragraph per run of non-blank lines, the run's stripped lines joined by single spaces |
| PdfGenerator.RunsAreMaximal | custom_tools/PDFGeneratorTool.py:179-196 | the runs the loop gathers are the maximal runs of non-blank lines, read from the front |
| PdfGenerator.RunsAtBlank | custom_tools/PDFGeneratorTool.py:184-187 | a blank line separates: the runs around it are the runs on either side |
| PdfGenerator.RunsOfBlock | custom_tools/PDFGeneratorTool.py:188-196 | a block of non-blank lines is one run of its stripped lines |
| PdfGenerator.RunsOfBlankLines | custom_tools/PDFGeneratorTool.py:184-187 | blank lines alone, however many in a row, give no paragraph |
| PdfGenerator.RunsContent | custom_tools/PDFGeneratorTool.py:189-192 | the runs, one after the other, are exactly the stripped non-blank lines in input order |
| PdfGenerator.LetterParagraphsSolid | custom_tools/PDFGeneratorTool.py:183-196 | every letter paragraph is non-empty, holds no line break and has no whitespace at either end |
| PdfGenerator.DefaultPdfPathSwapsExtension | custom_tools/PDFGeneratorTool.py:220-222 | with no output path given, a file name's extension is replaced by `.pdf` |
| PdfGenerator.DefaultPdfPathAppends | custom_tools/PDFGeneratorTool.py:220-222 | a file name without a dot gets `.pdf` appended |
| PdfGenerator.PdfGeneratorTool.constructor | custom_tools/PDFGeneratorTool.py:20-21 | a new tool has no last generated file |
| PdfGenerator.PdfGeneratorTool.CreatePdfFromText | custom_tools/PDFGeneratorTool.py:23-99 | without the library: the fixed reply, state unchanged. With it: the reply reports the guarded directory step and the build of the text story; the last file is set only when the build finished |
| PdfGenerator.PdfGeneratorTool.CreateCoverLetterPdf | custom_tools/PDFGeneratorTool.py:101-211 | the same for the reflowed letter story, with that method's own replies |
| PdfGenerator.PdfGeneratorTool.TextToPdf | custom_tools/PDFGeneratorTool.py:213-239 | a missing file, a failed read, a missing library and a build are the four outcomes; the output path is the given one, or else the default; the title is the file's base name |
| PdfGenerator.PdfGeneratorTool.GetLastGeneratedFile | custom_tools/PDFGeneratorTool.py:241-243 | the last output file, or the fixed "No PDF file generated yet" while there is none |

## Left out

- Python's `lower()`, `strip()` and `title()` are modelled on ASCII. Whitespace is the ASCII set `str.isspace` accepts. Unicode case mapping and Unicode spaces are not modelled.
- File I/O, directory creation, `open(...).read()`, `os.path.exists` and `os.path.getsize` are outside the model. Each becomes a parameter that says how the step ended.
- ReportLab is not modelled: page size, margins, paragraph styles and fonts, and what `doc.build` does with a story. Only the story handed to it is modelled; styles are just the names `TitleStyle`, `BodyStyle` and `LetterBodyStyle`.
- `create_pdf_from_text` has an `author` parameter it never uses, and `create_cover_letter_pdf` has `applicant_name`, `position` and `company` parameters it never uses. The model leaves them out; the default title `"Cover Letter"` is a caller's choice.
- The commented-out header and date lines of `create_cover_letter_pdf` are not modelled, since they never run.
- `create_cover_letter_from_files` only formats a message around a timestamp from the clock. `check_reportlab_installation` only returns one of two fixed texts. Neither is modelled.
- The text of a caught exception (`str(e)`) is an opaque `reason` string.
- CoverLetter.CoverLetterTool.GenerateCoverLetter: saves through the corrected `Save`, not through `SaveAsWritten`, because the model follows the evidently intended program (see Findings). For a non-empty `output_file` without `/`, such as `demo_cover_letter.txt`, line 59 as written always reports the `makedirs('')` failure, while the method reports how writing the file ended. `CoverLetter.BareFileNameReport` states both replies for that case.
- The sample résumé and job text of the demo script are not worked through as a concrete case.
- The other tools and scripts of the repository are not part of this model: the PDF reader, the text-file reader, the browser tool, the agents and the demos.

## Findings

| source | as written | input that shows it | evidently intended | confidence | as-written member | corrected member |
|---|---|---|---|---|---|---|
| custom_tools/CoverLetterTool.py:59 | `os.makedirs(os.path.dirname(output_file), exist_ok=True)` runs even when the directory part is empty, and `os.makedirs('')` raises `FileNotFoundError`, so the letter is reported as not saved | `output_file = "cover_letter.txt"` (the file name `create_cover_letter_from_files` suggests has this shape) | create the directory only when the path names one, as `PDFGeneratorTool` does at lines 34-36 | not executed | CoverLetter.SaveAsWritten, CoverLetter.SaveAsWrittenCounterexample | CoverLetter.Save, CoverLetter.BareFileNameSaved |
