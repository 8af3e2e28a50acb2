/**
  The fixed replies of `PDFGeneratorTool`. Long texts are written as
  concatenations of 16-character pieces, which the verifier handles more
  cheaply than one long literal; each adds up to the reply's text.
 */
module PdfWording {
  import opened Text

  /** The first two lines of both replies given when the PDF library is
      missing; the first ends in a space. */
  const MissingBackend: String :=
    "Error: ReportLab" +
    " library not ins" +
    "talled. \nPlease " +
    "install it with:" +
    " pip install rep" +
    "ortlab\n"

  const TextPdfClosing: String :=
    "Alternatively, t" +
    "ext file has bee" +
    "n generated succ" +
    "essfully."

  const TextPdfUnavailable: String := MissingBackend + TextPdfClosing

  const LetterPdfClosing: String :=
    "Text file genera" +
    "tion completed s" +
    "uccessfully."

  const LetterPdfUnavailable: String := MissingBackend + LetterPdfClosing

  const PdfCreatedLead: String :=
    "PDF successfully" +
    " created: "
  const LetterPdfCreatedLead: String :=
    "Cover letter PDF" +
    " successfully cr" +
    "eated: "
  const SizeOpen: String := " ("
  const SizeClose: String := " bytes)"
  const NotCreatedLead: String :=
    "Error: PDF file " +
    "was not created " +
    "at "
  const PdfErrorLead: String :=
    "Error creating P" +
    "DF: "
  const LetterPdfErrorLead: String :=
    "Error creating c" +
    "over letter PDF:" +
    " "
  const TextNotFoundLead: String :=
    "Text file not fo" +
    "und: "
  const ConvertErrorLead: String :=
    "Error converting" +
    " text to PDF: "
  const NoPdfYet: String :=
    "No PDF file gene" +
    "rated yet"
  const PdfExtension: String := ".pdf"
}
