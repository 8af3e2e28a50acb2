/**
  The fixed wording of `CoverLetterTool`: the keyword vocabularies, the
  built-in template cut at its placeholders, the filler sentences and the
  returned messages.  Long texts are written as concatenations of short
  pieces, cut at word boundaries and at most 16 characters long; they add
  up to the text of the source character for character.  The split is there
  only for the verifier, which reasons about many short literals much more
  cheaply than about one long one.
 */
module Wording {
  import opened Text
  import opened Template

  /** The broad keywords tried for the experience paragraph, in order. */
  const TechKeywords: seq<String> := [
    "python", "java", "javascript", "react", "node.js", "sql", "aws", "docker",
    "kubernetes", "git", "agile", "scrum", "api", "database", "cloud",
    "machine learning", "data analysis", "project management", "leadership"
  ]

  /** The programming languages tried first for the key-skills phrase. */
  const ProgLangs: seq<String> := ["python", "java", "javascript", "c++", "c#", "go", "rust", "php"]

  /** The technologies and frameworks tried after the languages. */
  const Techs: seq<String> := [
    "react", "angular", "vue", "node.js", "django", "flask", "spring", "aws", "azure", "gcp"
  ]

  /** How many keywords the experience sentence names. */
  const ExperienceLimit: nat := 5

  /** How many entries the key-skills phrase names. */
  const SkillsLimit: nat := 3

  // ---------------------------------------------------------------------
  // The built-in template, cut at its six placeholders
  // ---------------------------------------------------------------------

  const TemplateText0: String :=
    "Dear Hiring " + "Manager,\n\nI am " + "writing to " + "express my " +
    "strong interest " + "in the "

  const TemplateText1: String :=
    " position at "

  const TemplateText2A: String :=
    ". With my " + "background and " + "skills that " + "align well with " + "your " +
    "requirements, "
  const TemplateText2B: String :=
    "I am excited " + "about the " + "opportunity to " + "contribute to " + "your team.\n\n"
  const TemplateText2: String := TemplateText2A + TemplateText2B

  const TemplateText3: String :=
    "\n\nI am " + "particularly " + "drawn to this " + "opportunity " + "because "

  const TemplateText4: String :=
    ". I believe my " + "experience in "

  const TemplateText5A: String :=
    " makes me an " + "ideal candidate " + "for this role.\n\n"
  const TemplateText5B: String :=
    "Thank you for " + "considering my " + "application. "
  const TemplateText5C: String :=
    "I look forward " + "to the " + "opportunity to " + "discuss how my " + "skills and " +
    "enthusiasm can " + "contribute to "
  const TemplateText5: String := TemplateText5A + TemplateText5B + TemplateText5C

  const TemplateText6: String :=
    "'s continued " + "success.\n\n" + "Sincerely,\n" + "[Your Name]"


  const TemplateLits: seq<String> := [
    TemplateText0, TemplateText1, TemplateText2, TemplateText3, TemplateText4, TemplateText5, TemplateText6
  ]

  const TemplateSlots: seq<Hole> := [
    Slot("position"), Slot("company"), Slot("relevant_experience"),
    Slot("why_company"), Slot("key_skills"), Slot("company")
  ]

  /** The built-in template: the text between the triple quotes, one line
      break on each side, stripped. */
  const DefaultTemplate: String := Strip("\n" + Render(TemplateLits, TemplateSlots) + "\n")

  // ---------------------------------------------------------------------
  // The computed sentences and their fillers
  // ---------------------------------------------------------------------

  const ExperienceLead: String :=
    "My experience " + "with "

  const ExperienceTailA: String :=
    " directly " + "aligns with " + "your " + "requirements. "
  const ExperienceTailB: String :=
    "I have " + "successfully " + "applied these " + "technologies in " + "previous roles "
  const ExperienceTailC: String :=
    "to deliver " + "high-quality " + "solutions and " + "drive business " + "results."
  const ExperienceTail: String := ExperienceTailA + ExperienceTailB + ExperienceTailC

  const ExperienceFallbackA: String :=
    "My professional " + "background has " + "equipped me " + "with the " + "technical " +
    "skills "
  const ExperienceFallbackB: String :=
    "and experience " + "that align well " + "with the " + "requirements " + "outlined in " +
    "your job " + "posting."
  const ExperienceFallback: String := ExperienceFallbackA + ExperienceFallbackB

  const SkillsFallback: String :=
    "software " + "development, " + "problem-solving," + " and team " + "collaboration"

  const WhyLead: String :=
    "it aligns with " + "my career goals " + "and offers the " + "opportunity to " +
    "apply my skills " + "in "

  const DefaultCompany: String := "the organization"
  const DefaultPosition: String := "the position"

  // ---------------------------------------------------------------------
  // Messages
  // ---------------------------------------------------------------------

  /** What `os.makedirs('')` raises. */
  const EmptyPathError: String := "[Errno 2] No such file or directory: ''"

  const GeneratedLead: String := "Cover letter generated"

  const TemplateHeader: String := "Current cover letter template:\n\n"
  const TemplateUpdated: String := "Cover letter template updated successfully"

}
