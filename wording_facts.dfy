/**
  Character facts about the fixed wording: every text is non-empty and none
  holds a `{`, so none can hold or start a placeholder token.
 */
module WordingFacts {
  import opened Text
  import opened Wording

  lemma TemplateText0Plain()
    ensures |TemplateText0| > 0 && '{' !in TemplateText0
  {
  }

  lemma TemplateText1Plain()
    ensures |TemplateText1| > 0 && '{' !in TemplateText1
  {
  }

  lemma TemplateText2APlain()
    ensures |TemplateText2A| > 0 && '{' !in TemplateText2A
  {
  }

  lemma TemplateText2BPlain()
    ensures |TemplateText2B| > 0 && '{' !in TemplateText2B
  {
  }

  lemma TemplateText2Plain()
    ensures |TemplateText2| > 0 && '{' !in TemplateText2
  {
    TemplateText2APlain();
    TemplateText2BPlain();
  }

  lemma TemplateText3Plain()
    ensures |TemplateText3| > 0 && '{' !in TemplateText3
  {
  }

  lemma TemplateText4Plain()
    ensures |TemplateText4| > 0 && '{' !in TemplateText4
  {
  }

  lemma TemplateText5APlain()
    ensures |TemplateText5A| > 0 && '{' !in TemplateText5A
  {
  }

  lemma TemplateText5BPlain()
    ensures |TemplateText5B| > 0 && '{' !in TemplateText5B
  {
  }

  lemma TemplateText5CPlain()
    ensures |TemplateText5C| > 0 && '{' !in TemplateText5C
  {
  }

  lemma TemplateText5Plain()
    ensures |TemplateText5| > 0 && '{' !in TemplateText5
  {
    TemplateText5APlain();
    TemplateText5BPlain();
    TemplateText5CPlain();
  }

  lemma TemplateText6Plain()
    ensures |TemplateText6| > 0 && '{' !in TemplateText6
  {
  }

  lemma ExperienceLeadPlain()
    ensures |ExperienceLead| > 0 && '{' !in ExperienceLead
  {
  }

  lemma ExperienceTailAPlain()
    ensures |ExperienceTailA| > 0 && '{' !in ExperienceTailA
  {
  }

  lemma ExperienceTailBPlain()
    ensures |ExperienceTailB| > 0 && '{' !in ExperienceTailB
  {
  }

  lemma ExperienceTailCPlain()
    ensures |ExperienceTailC| > 0 && '{' !in ExperienceTailC
  {
  }

  lemma ExperienceTailPlain()
    ensures |ExperienceTail| > 0 && '{' !in ExperienceTail
  {
    ExperienceTailAPlain();
    ExperienceTailBPlain();
    ExperienceTailCPlain();
  }

  lemma ExperienceFallbackAPlain()
    ensures |ExperienceFallbackA| > 0 && '{' !in ExperienceFallbackA
  {
  }

  lemma ExperienceFallbackBPlain()
    ensures |ExperienceFallbackB| > 0 && '{' !in ExperienceFallbackB
  {
  }

  lemma ExperienceFallbackPlain()
    ensures |ExperienceFallback| > 0 && '{' !in ExperienceFallback
  {
    ExperienceFallbackAPlain();
    ExperienceFallbackBPlain();
  }

  lemma SkillsFallbackPlain()
    ensures |SkillsFallback| > 0 && '{' !in SkillsFallback
  {
  }

  lemma WhyLeadPlain()
    ensures |WhyLead| > 0 && '{' !in WhyLead
  {
  }

  /** The built-in template neither starts nor ends with whitespace. */
  lemma TemplateEnds()
    ensures |TemplateText0| > 0 && !IsSpace(TemplateText0[0])
    ensures |TemplateText6| > 0 && !IsSpace(TemplateText6[|TemplateText6| - 1])
  {
  }
}
