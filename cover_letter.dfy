/**
  The cover-letter composer of `CoverLetterTool`: keyword intersection of a
  résumé and a job description against two fixed vocabularies, the fallback
  filler text, and the filling of the letter template by a chain of
  `replace` calls.
 */
module CoverLetter {
  import opened Text
  import opened Template
  import opened Wording
  import opened WordingFacts

  // ---------------------------------------------------------------------
  // Vocabularies
  // ---------------------------------------------------------------------

  predicate Distinct(v: seq<String>) {
    forall i, j :: 0 <= i < j < |v| ==> v[i] != v[j]
  }

  /** Every term of the vocabulary is non-empty and holds neither `{` nor
      `,`. */
  predicate CleanTerms(v: seq<String>) {
    forall i :: 0 <= i < |v| ==> |v[i]| > 0 && '{' !in v[i] && ',' !in v[i]
  }

  /** Every term is clean and starts with a small letter. */
  predicate PlainTerms(v: seq<String>) {
    CleanTerms(v) && forall i :: 0 <= i < |v| ==> IsLower(v[i][0])
  }

  lemma TechKeywordsCleanHead()
    ensures forall i :: 0 <= i < 10 ==> '{' !in TechKeywords[i] && ',' !in TechKeywords[i]
  {
  }

  lemma TechKeywordsCleanRest()
    ensures forall i :: 10 <= i < |TechKeywords| ==> '{' !in TechKeywords[i] && ',' !in TechKeywords[i]
  {
  }

  lemma TechKeywordsClean()
    ensures CleanTerms(TechKeywords)
  {
    TechKeywordKeysMatch();
    TechKeywordsCleanHead();
    TechKeywordsCleanRest();
  }

  /** Length and first two characters: enough to tell the broad keywords
      apart. Distinctness of the 19 keywords is proved through these integer
      keys because comparing the string literals pairwise directly is far
      more expensive for the verifier. */
  function ShortKey(t: String): int
    requires |t| >= 2
  {
    |t| * 1000000 + t[0] as int * 1000 + t[1] as int
  }

  /** The short keys of the broad keywords, in vocabulary order. */
  const TechKeywordKeys: seq<int> := [
    6112121, 4106097, 10106097, 5114101, 7110111, 3115113, 3097119, 6100111, 10107117, 3103105,
    5097103, 5115099, 3097112, 8100097, 5099108, 16109097, 13100097, 18112114, 10108101]

  lemma TechKeywordKeysMatch()
    ensures |TechKeywordKeys| == |TechKeywords|
    ensures forall i :: 0 <= i < |TechKeywords| ==>
      |TechKeywords[i]| >= 2 && ShortKey(TechKeywords[i]) == TechKeywordKeys[i]
  {
  }

  lemma TechKeywordKeysDistinct()
    ensures forall i, j :: 0 <= i < j < |TechKeywordKeys| ==> TechKeywordKeys[i] != TechKeywordKeys[j]
  {
  }

  lemma TechKeywordsDistinct()
    ensures Distinct(TechKeywords)
  {
    TechKeywordKeysMatch();
    TechKeywordKeysDistinct();
    forall i, j | 0 <= i < j < |TechKeywords| ensures TechKeywords[i] != TechKeywords[j] {
      assert ShortKey(TechKeywords[i]) != ShortKey(TechKeywords[j]);
    }
  }

  lemma ProgLangsPlain()
    ensures PlainTerms(ProgLangs)
  {
  }

  lemma ProgLangsDistinct()
    ensures Distinct(ProgLangs)
  {
  }

  lemma TechsPlain()
    ensures PlainTerms(Techs)
  {
  }

  lemma TechsDistinct()
    ensures Distinct(Techs)
  {
  }

  // ---------------------------------------------------------------------
  // Keyword intersection
  // ---------------------------------------------------------------------

  /** A term is kept when it occurs in both lower-cased texts. */
  predicate InBoth(term: String, resumeLower: String, jobLower: String) {
    Contains(jobLower, term) && Contains(resumeLower, term)
  }

  /** The terms of `vocab`, in vocabulary order, that occur in both texts. */
  function Matches(vocab: seq<String>, resumeLower: String, jobLower: String): (r: seq<String>)
    ensures |r| <= |vocab|
    decreases |vocab|
  {
    if vocab == [] then []
    else
      var last := vocab[|vocab| - 1];
      Matches(vocab[..|vocab| - 1], resumeLower, jobLower) +
        (if InBoth(last, resumeLower, jobLower) then [last] else [])
  }

  /** The uncapped keyword list behind the experience paragraph. */
  function ExperienceMatches(resumeText: String, jobDescription: String): seq<String> {
    Matches(TechKeywords, Lower(resumeText), Lower(jobDescription))
  }

  /** The uncapped key-skills list: matched languages title-cased, then
      matched technologies verbatim. */
  function SkillList(resumeText: String, jobDescription: String): seq<String> {
    TitleAll(Matches(ProgLangs, Lower(resumeText), Lower(jobDescription))) +
      Matches(Techs, Lower(resumeText), Lower(jobDescription))
  }

  function TitleAll(terms: seq<String>): (r: seq<String>)
    ensures |r| == |terms| && forall k :: 0 <= k < |terms| ==> r[k] == Title(terms[k])
  {
    seq(|terms|, k requires 0 <= k < |terms| => Title(terms[k]))
  }

  /** One more vocabulary term scanned: matching extends by that term exactly
      when it occurs in both texts. */
  lemma {:induction false} MatchesPrefixStep(vocab: seq<String>, i: nat, resumeLower: String, jobLower: String)
    requires i < |vocab|
    ensures Matches(vocab[..i + 1], resumeLower, jobLower) ==
      Matches(vocab[..i], resumeLower, jobLower) +
      (if InBoth(vocab[i], resumeLower, jobLower) then [vocab[i]] else [])
  {
    assert vocab[..i + 1][..i] == vocab[..i];
  }

  lemma {:induction false} TitleAllSnoc(terms: seq<String>, t: String)
    ensures TitleAll(terms + [t]) == TitleAll(terms) + [Title(t)]
  {
    assert forall k :: 0 <= k < |terms| + 1 ==> TitleAll(terms + [t])[k] == (TitleAll(terms) + [Title(t)])[k];
  }

  /** A term is matched exactly when it belongs to the vocabulary and occurs in
      both texts. */
  lemma {:induction false} MatchesMember(vocab: seq<String>, resumeLower: String, jobLower: String, t: String)
    ensures t in Matches(vocab, resumeLower, jobLower) <==> t in vocab && InBoth(t, resumeLower, jobLower)
    decreases |vocab|
  {
    if vocab != [] {
      var init := vocab[..|vocab| - 1];
      MatchesMember(init, resumeLower, jobLower, t);
      assert vocab == init + [vocab[|vocab| - 1]];
    }
  }

  /** `m` is `v` with some elements left out, the rest kept in order. */
  predicate IsSubsequence(m: seq<String>, v: seq<String>)
    decreases |v|
  {
    if m == [] then true
    else if v == [] then false
    else if m[|m| - 1] == v[|v| - 1] then IsSubsequence(m[..|m| - 1], v[..|v| - 1])
    else IsSubsequence(m, v[..|v| - 1])
  }

  lemma {:induction false} SubsequenceSnoc(m: seq<String>, v: seq<String>, x: String)
    requires IsSubsequence(m, v)
    ensures IsSubsequence(m, v + [x])
    decreases |v|, 1
  {
    if m != [] {
      assert (v + [x])[..|v|] == v;
      if m[|m| - 1] == x {
        SubsequenceDropLast(m, v);
      }
    }
  }

  lemma {:induction false} SubsequenceDropLast(m: seq<String>, v: seq<String>)
    requires IsSubsequence(m, v) && m != []
    ensures IsSubsequence(m[..|m| - 1], v)
    decreases |v|, 0
  {
    var init := m[..|m| - 1];
    if m[|m| - 1] == v[|v| - 1] {
      if init != [] {
        SubsequenceDropLast(init, v[..|v| - 1]);
        SubsequenceSnoc(init[..|init| - 1], v[..|v| - 1], v[|v| - 1]);
        assert v[..|v| - 1] + [v[|v| - 1]] == v;
      }
    } else {
      SubsequenceDropLast(m, v[..|v| - 1]);
      SubsequenceSnoc(init, v[..|v| - 1], v[|v| - 1]);
      assert v[..|v| - 1] + [v[|v| - 1]] == v;
    }
  }

  lemma {:induction false} SubsequenceBothSnoc(m: seq<String>, v: seq<String>, x: String)
    requires IsSubsequence(m, v)
    ensures IsSubsequence(m + [x], v + [x])
  {
    assert (m + [x])[..|m|] == m;
    assert (v + [x])[..|v|] == v;
  }

  /** Extra elements after `v` keep `m` a subsequence. */
  lemma {:induction false} SubsequenceAppendRight(m: seq<String>, v: seq<String>, w: seq<String>)
    requires IsSubsequence(m, v)
    ensures IsSubsequence(m, v + w)
    decreases |w|
  {
    if w != [] {
      var init := w[..|w| - 1];
      SubsequenceAppendRight(m, v, init);
      SubsequenceSnoc(m, v + init, w[|w| - 1]);
      assert v + init + [w[|w| - 1]] == v + w;
    } else {
      assert v + w == v;
    }
  }

  /** Subsequences concatenate. */
  lemma {:induction false} SubsequenceConcat(a: seq<String>, b: seq<String>, c: seq<String>, d: seq<String>)
    requires IsSubsequence(a, b) && IsSubsequence(c, d)
    ensures IsSubsequence(a + c, b + d)
    decreases |d|
  {
    if c == [] {
      assert a + c == a;
      SubsequenceAppendRight(a, b, d);
    } else {
      assert (a + c)[..|a + c| - 1] == a + c[..|c| - 1];
      assert (b + d)[..|b + d| - 1] == b + d[..|d| - 1];
      if c[|c| - 1] == d[|d| - 1] {
        SubsequenceConcat(a, b, c[..|c| - 1], d[..|d| - 1]);
      } else {
        SubsequenceConcat(a, b, c, d[..|d| - 1]);
      }
    }
  }

  /** Title-casing each term keeps a subsequence a subsequence. */
  lemma {:induction false} TitleAllSubsequence(m: seq<String>, v: seq<String>)
    requires IsSubsequence(m, v)
    ensures IsSubsequence(TitleAll(m), TitleAll(v))
    decreases |v|
  {
    if m != [] {
      var tm, tv := TitleAll(m), TitleAll(v);
      assert tm[..|tm| - 1] == TitleAll(m[..|m| - 1]);
      assert tv[..|tv| - 1] == TitleAll(v[..|v| - 1]);
      if m[|m| - 1] == v[|v| - 1] {
        TitleAllSubsequence(m[..|m| - 1], v[..|v| - 1]);
      } else {
        TitleAllSubsequence(m, v[..|v| - 1]);
        if tm[|tm| - 1] == tv[|tv| - 1] {
          SubsequenceDropLast(tm, tv[..|tv| - 1]);
        }
      }
    }
  }

  /** The matched list keeps vocabulary order. */
  lemma {:induction false} MatchesInOrder(vocab: seq<String>, resumeLower: String, jobLower: String)
    ensures IsSubsequence(Matches(vocab, resumeLower, jobLower), vocab)
    decreases |vocab|
  {
    if vocab != [] {
      var init := vocab[..|vocab| - 1];
      var last := vocab[|vocab| - 1];
      var m := Matches(init, resumeLower, jobLower);
      MatchesInOrder(init, resumeLower, jobLower);
      assert init + [last] == vocab;
      if InBoth(last, resumeLower, jobLower) {
        assert Matches(vocab, resumeLower, jobLower) == m + [last];
        SubsequenceBothSnoc(m, init, last);
      } else {
        assert Matches(vocab, resumeLower, jobLower) == m + [];
        assert m + [] == m;
        SubsequenceSnoc(m, init, last);
      }
    }
  }

  /** A vocabulary without repetitions gives a matched list without
      repetitions. */
  lemma {:induction false} MatchesDistinct(vocab: seq<String>, resumeLower: String, jobLower: String)
    requires Distinct(vocab)
    ensures Distinct(Matches(vocab, resumeLower, jobLower))
    decreases |vocab|
  {
    if vocab != [] {
      var init := vocab[..|vocab| - 1];
      var last := vocab[|vocab| - 1];
      var m := Matches(init, resumeLower, jobLower);
      assert Distinct(init);
      MatchesDistinct(init, resumeLower, jobLower);
      if InBoth(last, resumeLower, jobLower) {
        MatchesMember(init, resumeLower, jobLower, last);
        assert last !in init;
        assert forall i :: 0 <= i < |m| ==> m[i] in m;
      }
    }
  }

  /** Adding text to the job description never removes a term: the old
      matched list is a subsequence of the new one. */
  lemma {:induction false} MatchesGrowWithJob(vocab: seq<String>, resumeLower: String, jobLower: String, more: String)
    ensures IsSubsequence(Matches(vocab, resumeLower, jobLower), Matches(vocab, resumeLower, jobLower + more))
    decreases |vocab|
  {
    if vocab != [] {
      var init := vocab[..|vocab| - 1];
      var last := vocab[|vocab| - 1];
      var m := Matches(init, resumeLower, jobLower);
      var m' := Matches(init, resumeLower, jobLower + more);
      MatchesGrowWithJob(init, resumeLower, jobLower, more);
      if Contains(jobLower, last) {
        ContainsExtend(jobLower, last, [], more);
        assert [] + jobLower + more == jobLower + more;
      }
      assert m + [] == m && m' + [] == m';
      if InBoth(last, resumeLower, jobLower) {
        SubsequenceBothSnoc(m, m', last);
      } else if InBoth(last, resumeLower, jobLower + more) {
        SubsequenceSnoc(m, m', last);
      }
    }
  }

  lemma {:induction false} SubsequenceShorter(m: seq<String>, v: seq<String>)
    requires IsSubsequence(m, v)
    ensures |m| <= |v|
    decreases |v|
  {
    if m != [] {
      if m[|m| - 1] == v[|v| - 1] {
        SubsequenceShorter(m[..|m| - 1], v[..|v| - 1]);
      } else {
        SubsequenceShorter(m, v[..|v| - 1]);
      }
    }
  }

  /** Appending text to the job description keeps every matched keyword and
      every matched skill, so neither uncapped list gets shorter. */
  lemma {:induction false} JobExtensionKeepsMatches(resumeText: String, jobDescription: String, more: String)
    ensures IsSubsequence(ExperienceMatches(resumeText, jobDescription),
                          ExperienceMatches(resumeText, jobDescription + more))
    ensures |ExperienceMatches(resumeText, jobDescription)| <=
            |ExperienceMatches(resumeText, jobDescription + more)|
    ensures IsSubsequence(SkillList(resumeText, jobDescription), SkillList(resumeText, jobDescription + more))
    ensures |SkillList(resumeText, jobDescription)| <= |SkillList(resumeText, jobDescription + more)|
  {
    var rl, jl, ml := Lower(resumeText), Lower(jobDescription), Lower(more);
    LowerAppend(jobDescription, more);
    MatchesGrowWithJob(TechKeywords, rl, jl, ml);
    SubsequenceShorter(ExperienceMatches(resumeText, jobDescription),
                       ExperienceMatches(resumeText, jobDescription + more));
    MatchesGrowWithJob(ProgLangs, rl, jl, ml);
    SubsequenceShorter(Matches(ProgLangs, rl, jl), Matches(ProgLangs, rl, jl + ml));
    MatchesGrowWithJob(Techs, rl, jl, ml);
    TitleAllSubsequence(Matches(ProgLangs, rl, jl), Matches(ProgLangs, rl, jl + ml));
    SubsequenceConcat(TitleAll(Matches(ProgLangs, rl, jl)), TitleAll(Matches(ProgLangs, rl, jl + ml)),
                      Matches(Techs, rl, jl), Matches(Techs, rl, jl + ml));
    SubsequenceShorter(SkillList(resumeText, jobDescription), SkillList(resumeText, jobDescription + more));
  }

  /** Overlapping terms are not told apart: wherever `javascript` is found in
      both texts, `java` is matched too, in both lists. */
  lemma {:induction false} JavascriptImpliesJava(resumeText: String, jobDescription: String)
    requires InBoth("javascript", Lower(resumeText), Lower(jobDescription))
    ensures "java" in ExperienceMatches(resumeText, jobDescription)
    ensures "Java" in SkillList(resumeText, jobDescription)
  {
    var rl, jl := Lower(resumeText), Lower(jobDescription);
    JavaInsideJavascript();
    ContainsTransitive(rl, "javascript", "java");
    ContainsTransitive(jl, "javascript", "java");
    JavaListed();
    MatchesMember(TechKeywords, rl, jl, "java");
    MatchesMember(ProgLangs, rl, jl, "java");
    var langs := Matches(ProgLangs, rl, jl);
    var k :| 0 <= k < |langs| && langs[k] == "java";
    assert TitleAll(langs)[k] == "Java";
  }

  lemma JavaInsideJavascript()
    ensures OccursAt("javascript", "java", 0)
  {
  }

  /** `java` is both a broad keyword and a language, and title-cases to `Java`. */
  lemma JavaListed()
    ensures "java" in TechKeywords && "java" in ProgLangs && Title("java") == "Java"
  {
    assert TechKeywords[1] == "java";
    assert ProgLangs[1] == "java";
  }

  // ---------------------------------------------------------------------
  // The two computed sentences
  // ---------------------------------------------------------------------

  /** The experience paragraph for a matched keyword list: the first five named
      in a sentence, or the fixed filler when nothing matched. */
  function ExperienceSection(matched: seq<String>): String {
    if |matched| > 0 then ExperienceLead + Join(Take(matched, ExperienceLimit), ", ") + ExperienceTail
    else ExperienceFallback
  }

  /** The key-skills phrase for a skill list: the first three joined by
      commas, or the fixed filler when nothing matched. */
  function KeySkillsPhrase(skills: seq<String>): String {
    if |skills| > 0 then Join(Take(skills, SkillsLimit), ", ") else SkillsFallback
  }

  /** Title-casing leaves a string without a non-letter character without it. */
  lemma {:induction false} TitleNoChar(s: String, c: char)
    requires !IsLetter(c) && NoChar(s, c)
    ensures NoChar(Title(s), c)
  {
  }

  /** Matching only keeps vocabulary terms, so it keeps their shape. */
  lemma {:induction false} MatchedTermsClean(vocab: seq<String>, resumeLower: String, jobLower: String)
    requires CleanTerms(vocab)
    ensures CleanTerms(Matches(vocab, resumeLower, jobLower))
  {
    var m := Matches(vocab, resumeLower, jobLower);
    forall i | 0 <= i < |m|
      ensures m[i] in vocab
    {
      assert m[i] in m;
      MatchesMember(vocab, resumeLower, jobLower, m[i]);
    }
  }

  lemma {:induction false} MatchedTermsPlain(vocab: seq<String>, resumeLower: String, jobLower: String)
    requires PlainTerms(vocab)
    ensures PlainTerms(Matches(vocab, resumeLower, jobLower))
  {
    var m := Matches(vocab, resumeLower, jobLower);
    forall i | 0 <= i < |m|
      ensures m[i] in vocab
    {
      assert m[i] in m;
      MatchesMember(vocab, resumeLower, jobLower, m[i]);
    }
  }

  /** The experience sentence names at most five keywords, namely the first
      five matched ones: cutting its middle at ", " gives them back. With no
      match it is exactly the filler. */
  lemma {:induction false} ExperienceSectionSplits(m: seq<String>)
    requires CleanTerms(m)
    ensures var section := ExperienceSection(m);
      (m == [] ==> section == ExperienceFallback) &&
      (m != [] ==>
        |ExperienceLead| + |ExperienceTail| < |section| &&
        section[..|ExperienceLead|] == ExperienceLead &&
        section[|section| - |ExperienceTail|..] == ExperienceTail &&
        var names := Split(section[|ExperienceLead|..|section| - |ExperienceTail|], ", ");
        |names| == (if |m| < ExperienceLimit then |m| else ExperienceLimit) && names == m[..|names|])
  {
    if m != [] {
      var named := Take(m, ExperienceLimit);
      var body := Join(named, ", ");
      forall k | 0 <= k < |named| ensures NoChar(named[k], ',') {
        assert named[k] == m[k];
        NoCharFromNotIn(m[k], ',');
      }
      JoinSplit(named, ", ");
      var section := ExperienceLead + body + ExperienceTail;
      assert |named| > 0 && named[0] == m[0];
      assert section[|ExperienceLead|..|section| - |ExperienceTail|] == body;
    }
  }

  /** The experience paragraph of a résumé and a job description names the
      first five shared broad keywords. */
  lemma {:induction false} ExperienceSectionNames(resumeText: String, jobDescription: String)
    ensures var m := ExperienceMatches(resumeText, jobDescription);
      var section := ExperienceSection(m);
      (m == [] ==> section == ExperienceFallback) &&
      (m != [] ==>
        |ExperienceLead| + |ExperienceTail| < |section| &&
        section[..|ExperienceLead|] == ExperienceLead &&
        section[|section| - |ExperienceTail|..] == ExperienceTail &&
        var names := Split(section[|ExperienceLead|..|section| - |ExperienceTail|], ", ");
        |names| == (if |m| < ExperienceLimit then |m| else ExperienceLimit) && names == m[..|names|])
  {
    TechKeywordsClean();
    MatchedTermsClean(TechKeywords, Lower(resumeText), Lower(jobDescription));
    ExperienceSectionSplits(ExperienceMatches(resumeText, jobDescription));
  }

  /** The key-skills list puts every language before every technology: the
      entries starting with a capital form a prefix, the matched languages
      title-cased in vocabulary order, and the technologies follow verbatim. */
  lemma {:induction false} SkillListLanguagesFirst(resumeText: String, jobDescription: String)
    ensures var skills := SkillList(resumeText, jobDescription);
      (forall k :: 0 <= k < |skills| ==> |skills[k]| > 0 && IsLetter(skills[k][0])) &&
      (forall a, b :: 0 <= a < b < |skills| && IsUpper(skills[b][0]) ==> IsUpper(skills[a][0]))
    ensures var langs := Matches(ProgLangs, Lower(resumeText), Lower(jobDescription));
      var skills := SkillList(resumeText, jobDescription);
      |langs| <= |skills| &&
      (forall k :: 0 <= k < |langs| ==> IsUpper(skills[k][0]) && Lower(skills[k]) == langs[k]) &&
      (forall k :: |langs| <= k < |skills| ==> IsLower(skills[k][0]) && skills[k] in Techs)
  {
    var rl, jl := Lower(resumeText), Lower(jobDescription);
    ProgLangsPlain();
    TechsPlain();
    MatchedTermsPlain(ProgLangs, rl, jl);
    MatchedTermsPlain(Techs, rl, jl);
    var langs := Matches(ProgLangs, rl, jl);
    var techs := Matches(Techs, rl, jl);
    var skills := SkillList(resumeText, jobDescription);
    forall k | 0 <= k < |langs| ensures Lower(skills[k]) == langs[k] {
      assert langs[k] in langs;
      MatchesMember(ProgLangs, rl, jl, langs[k]);
      ContainedInLowerHasNoUpper(resumeText, langs[k]);
      TitleOfLowerWord(langs[k]);
    }
    forall k | |langs| <= k < |skills| ensures skills[k] in Techs {
      assert skills[k] == techs[k - |langs|];
      assert techs[k - |langs|] in techs;
      MatchesMember(Techs, rl, jl, skills[k]);
    }
  }

  /** A piece of lower-cased text holds no capital letter. */
  lemma {:induction false} ContainedInLowerHasNoUpper(s: String, t: String)
    requires Contains(Lower(s), t)
    ensures forall i :: 0 <= i < |t| ==> !IsUpper(t[i])
  {
    var j :| 0 <= j <= |s| - |t| && OccursAt(Lower(s), t, j);
    assert forall i :: 0 <= i < |t| ==> t[i] == Lower(s)[j + i];
  }

  /** Lower-casing a title-cased lower-case word gives the word back. */
  lemma {:induction false} TitleOfLowerWord(w: String)
    requires forall i :: 0 <= i < |w| ==> !IsUpper(w[i])
    ensures Lower(Title(w)) == w
  {
    assert forall i :: 0 <= i < |w| ==> Lower(Title(w))[i] == w[i];
  }

  /** The key-skills phrase names at most three entries, the first three of the
      skill list; with no skill it is exactly the filler. */
  lemma {:induction false} KeySkillsNames(resumeText: String, jobDescription: String)
    ensures var skills := SkillList(resumeText, jobDescription);
      var phrase := KeySkillsPhrase(skills);
      (skills == [] ==> phrase == SkillsFallback) &&
      (skills != [] ==>
        var names := Split(phrase, ", ");
        |names| == (if |skills| < SkillsLimit then |skills| else SkillsLimit) && names == skills[..|names|])
  {
    var rl, jl := Lower(resumeText), Lower(jobDescription);
    var skills := SkillList(resumeText, jobDescription);
    if skills != [] {
      ProgLangsPlain();
      TechsPlain();
      MatchedTermsPlain(ProgLangs, rl, jl);
      MatchedTermsPlain(Techs, rl, jl);
      var langs := Matches(ProgLangs, rl, jl);
      var named := Take(skills, SkillsLimit);
      forall k | 0 <= k < |named| ensures NoChar(named[k], ',') {
        assert named[k] == skills[k];
        if k < |langs| {
          NoCharFromNotIn(langs[k], ',');
          TitleNoChar(langs[k], ',');
        } else {
          NoCharFromNotIn(skills[k], ',');
        }
      }
      JoinSplit(named, ", ");
    }
  }

  /** The experience sentence built from a list of clean terms is free of
      `{`: its lead, its tail and every named term are. */
  lemma {:induction false} ExperienceSectionBraceFree(m: seq<String>)
    requires CleanTerms(m)
    ensures NoChar(ExperienceSection(m), '{')
  {
    if m != [] {
      var named := Take(m, ExperienceLimit);
      forall k | 0 <= k < |named| ensures NoChar(named[k], '{') {
        assert named[k] == m[k];
        NoCharFromNotIn(m[k], '{');
      }
      JoinNoChar(named, ", ", '{');
      ExperienceLeadPlain();
      ExperienceTailPlain();
      NoCharFromNotIn(ExperienceLead, '{');
      NoCharFromNotIn(ExperienceTail, '{');
      NoCharConcat(ExperienceLead, Join(named, ", "), '{');
      NoCharConcat(ExperienceLead + Join(named, ", "), ExperienceTail, '{');
    } else {
      ExperienceFallbackPlain();
      NoCharFromNotIn(ExperienceFallback, '{');
    }
  }

  lemma {:induction false} ExperienceSectionNoBrace(resumeText: String, jobDescription: String)
    ensures NoChar(ExperienceSection(ExperienceMatches(resumeText, jobDescription)), '{')
  {
    TechKeywordsClean();
    MatchedTermsClean(TechKeywords, Lower(resumeText), Lower(jobDescription));
    ExperienceSectionBraceFree(ExperienceMatches(resumeText, jobDescription));
  }

  lemma {:induction false} KeySkillsNoBrace(resumeText: String, jobDescription: String)
    ensures NoChar(KeySkillsPhrase(SkillList(resumeText, jobDescription)), '{')
  {
    var rl, jl := Lower(resumeText), Lower(jobDescription);
    var skills := SkillList(resumeText, jobDescription);
    if skills != [] {
      ProgLangsPlain();
      TechsPlain();
      MatchedTermsPlain(ProgLangs, rl, jl);
      MatchedTermsPlain(Techs, rl, jl);
      var langs := Matches(ProgLangs, rl, jl);
      var named := Take(skills, SkillsLimit);
      forall k | 0 <= k < |named| ensures NoChar(named[k], '{') {
        assert named[k] == skills[k];
        if k < |langs| {
          NoCharFromNotIn(langs[k], '{');
          TitleNoChar(langs[k], '{');
        } else {
          NoCharFromNotIn(skills[k], '{');
        }
      }
      JoinNoChar(named, ", ", '{');
    } else {
      SkillsFallbackPlain();
      NoCharFromNotIn(SkillsFallback, '{');
    }
  }

  lemma {:induction false} NoCharConcat(a: String, b: String, c: char)
    requires NoChar(a, c) && NoChar(b, c)
    ensures NoChar(a + b, c)
  {
  }

  // ---------------------------------------------------------------------
  // The letter
  // ---------------------------------------------------------------------

  function CompanyOrDefault(companyName: String): String {
    if companyName == [] then DefaultCompany else companyName
  }

  function PositionOrDefault(positionTitle: String): String {
    if positionTitle == [] then DefaultPosition else positionTitle
  }

  /** The reason given for applying, naming the position in lower case. */
  function WhyCompany(position: String): String {
    WhyLead + Lower(position)
  }

  /** The chain of `replace` calls that fills a template, in source order. */
  function FillTemplate(template: String, position: String, company: String,
                        experience: String, why: String, skills: String): String
  {
    var withPosition := Replace(template, Token("position"), position);
    var withCompany := Replace(withPosition, Token("company"), company);
    var withExperience := Replace(withCompany, Token("relevant_experience"), experience);
    var withWhy := Replace(withExperience, Token("why_company"), why);
    Replace(withWhy, Token("key_skills"), skills)
  }

  /** The letter text composed from a template, the two texts and the
      optional company and position. */
  function ComposeLetter(template: String, resumeText: String, jobDescription: String,
                         companyName: String, positionTitle: String): String
  {
    var position := PositionOrDefault(positionTitle);
    FillTemplate(template, position, CompanyOrDefault(companyName),
      ExperienceSection(ExperienceMatches(resumeText, jobDescription)),
      WhyCompany(position),
      KeySkillsPhrase(SkillList(resumeText, jobDescription)))
  }

  /** A template without `{{` is returned verbatim, whatever the inputs. */
  lemma {:induction false} LetterFromPlainTemplate(template: String, resumeText: String, jobDescription: String,
                                companyName: String, positionTitle: String)
    requires NoDoubleBrace(template)
    ensures ComposeLetter(template, resumeText, jobDescription, companyName, positionTitle) == template
  {
    var position := PositionOrDefault(positionTitle);
    PlainTemplateUnchanged(template, "position", position);
    PlainTemplateUnchanged(template, "company", CompanyOrDefault(companyName));
    PlainTemplateUnchanged(template, "relevant_experience",
                           ExperienceSection(ExperienceMatches(resumeText, jobDescription)));
    PlainTemplateUnchanged(template, "why_company", WhyCompany(position));
    PlainTemplateUnchanged(template, "key_skills", KeySkillsPhrase(SkillList(resumeText, jobDescription)));
  }

  lemma {:induction false} PlainTemplateUnchanged(template: String, name: String, value: String)
    requires NoDoubleBrace(template)
    ensures Replace(template, Token(name), value) == template
  {
    ValueHoldsNoToken(template, Token(name));
    ReplaceAbsent(template, Token(name), value);
  }

  // ---------------------------------------------------------------------
  // The built-in template
  // ---------------------------------------------------------------------

  /** The five placeholder names are brace-free. */
  lemma PlaceholderNamesPlain()
    ensures BraceFree("position") && BraceFree("company") && BraceFree("relevant_experience")
    ensures BraceFree("why_company") && BraceFree("key_skills")
  {
  }

  lemma TemplateSlotsPlain()
    ensures forall i :: 0 <= i < |TemplateSlots| ==>
      match TemplateSlots[i]
      case Slot(n) => |n| > 0 && BraceFree(n)
      case Filled(v) => NoDoubleBrace(v)
  {
    PlaceholderNamesPlain();
  }

  lemma TemplateWellFormed()
    ensures WellFormed(TemplateLits, TemplateSlots)
  {
    TemplateSlotsPlain();
    TemplateText0Plain();
    TemplateText1Plain();
    TemplateText2Plain();
    TemplateText3Plain();
    TemplateText4Plain();
    TemplateText5Plain();
    TemplateText6Plain();
  }

  /** Stripping removes exactly the two surrounding line breaks. */
  lemma DefaultTemplateShape()
    ensures DefaultTemplate == Render(TemplateLits, TemplateSlots)
  {
    TemplateEnds();
    RenderStripped(TemplateLits, TemplateSlots);
  }

  /** The holes of the built-in template once all five replacements ran. */
  function DefaultFilling(position: String, company: String, experience: String,
                          why: String, skills: String): seq<Hole>
  {
    [Filled(position), Filled(company), Filled(experience), Filled(why), Filled(skills), Filled(company)]
  }

  /** Filling the five placeholder names of the built-in layout one after the
      other fills every hole, the company into both of its holes. */
  lemma {:induction false} DefaultFillingSteps(position: String, company: String, experience: String,
                            why: String, skills: String)
    ensures Fill(Fill(Fill(Fill(Fill(TemplateSlots, "position", position), "company", company),
      "relevant_experience", experience), "why_company", why), "key_skills", skills)
      == DefaultFilling(position, company, experience, why, skills)
  {
  }

  /** Filling a template with the built-in placeholder layout puts each
      value into its holes, the company into both of its holes, and leaves all
      literal text as it was, provided no value holds `{{`. */
  lemma {:induction false} FillLayout(lits: seq<String>, position: String, company: String, experience: String,
                   why: String, skills: String)
    requires WellFormed(lits, TemplateSlots)
    requires NoDoubleBrace(position) && NoDoubleBrace(company) && NoDoubleBrace(experience)
    requires NoDoubleBrace(why) && NoDoubleBrace(skills)
    ensures FillTemplate(Render(lits, TemplateSlots), position, company, experience, why, skills)
      == Render(lits, DefaultFilling(position, company, experience, why, skills))
    ensures WellFormed(lits, DefaultFilling(position, company, experience, why, skills))
  {
    var h0 := TemplateSlots;
    ReplaceRender(lits, h0, "position", position);
    var h1 := Fill(h0, "position", position);
    ReplaceRender(lits, h1, "company", company);
    var h2 := Fill(h1, "company", company);
    ReplaceRender(lits, h2, "relevant_experience", experience);
    var h3 := Fill(h2, "relevant_experience", experience);
    ReplaceRender(lits, h3, "why_company", why);
    var h4 := Fill(h3, "why_company", why);
    ReplaceRender(lits, h4, "key_skills", skills);
    DefaultFillingSteps(position, company, experience, why, skills);
  }

  lemma {:induction false} LowerNoDoubleBrace(s: String)
    requires NoDoubleBrace(s)
    ensures NoDoubleBrace(Lower(s))
  {
    LowerDoubleBrace(s);
  }

  /** Lower-casing never makes a `{{`: one in `Lower(s)` was already in `s`. */
  lemma {:induction false} LowerDoubleBrace(s: String)
    ensures Contains(Lower(s), "{{") ==> Contains(s, "{{")
  {
    var t := Lower(s);
    if Contains(t, "{{") {
      var k :| 0 <= k <= |t| - 2 && OccursAt(t, "{{", k);
      assert t[k..k + 2][0] == t[k] == '{' && t[k..k + 2][1] == t[k + 1] == '{';
      assert s[k] == '{' && s[k + 1] == '{';
      assert s[k..k + 2] == "{{";
      assert OccursAt(s, "{{", k);
    }
  }

  /** A template with the built-in placeholder layout, filled with values
      without `{{`, is its literal text with every placeholder filled; no `{{`
      is left and it starts and ends with its first and last literal pieces. */
  lemma {:induction false} FilledLayout(lits: seq<String>, position: String, company: String, experience: String,
                     why: String, skills: String)
    requires WellFormed(lits, TemplateSlots)
    requires NoDoubleBrace(position) && NoDoubleBrace(company) && NoDoubleBrace(experience)
    requires NoDoubleBrace(why) && NoDoubleBrace(skills)
    ensures var letter := FillTemplate(Render(lits, TemplateSlots), position, company, experience, why, skills);
      letter == Render(lits, DefaultFilling(position, company, experience, why, skills)) &&
      NoDoubleBrace(letter) &&
      |lits[0]| <= |letter| && letter[..|lits[0]|] == lits[0] &&
      |lits[6]| <= |letter| && letter[|letter| - |lits[6]|..] == lits[6]
  {
    var holes := DefaultFilling(position, company, experience, why, skills);
    var letter := FillTemplate(Render(lits, TemplateSlots), position, company, experience, why, skills);
    FillLayout(lits, position, company, experience, why, skills);
    assert AllFilled(holes);
    ClosedRender(lits, holes);
    assert |lits| == |TemplateSlots| + 1 == 7;
  }

  /** The same for the letter composed from a résumé, a job description, a
      company and a position without `{{`. */
  lemma {:induction false} LayoutLetter(lits: seq<String>, resumeText: String, jobDescription: String,
                     companyName: String, positionTitle: String)
    requires WellFormed(lits, TemplateSlots)
    requires NoDoubleBrace(companyName) && NoDoubleBrace(positionTitle)
    ensures var position := PositionOrDefault(positionTitle);
      var letter := ComposeLetter(Render(lits, TemplateSlots), resumeText, jobDescription, companyName, positionTitle);
      letter == Render(lits, DefaultFilling(position, CompanyOrDefault(companyName),
        ExperienceSection(ExperienceMatches(resumeText, jobDescription)),
        WhyCompany(position), KeySkillsPhrase(SkillList(resumeText, jobDescription)))) &&
      NoDoubleBrace(letter) &&
      |lits[0]| <= |letter| && letter[..|lits[0]|] == lits[0] &&
      |lits[6]| <= |letter| && letter[|letter| - |lits[6]|..] == lits[6]
  {
    var position := PositionOrDefault(positionTitle);
    LetterValuesPlain(resumeText, jobDescription, companyName, positionTitle);
    FilledLayout(lits, position, CompanyOrDefault(companyName),
      ExperienceSection(ExperienceMatches(resumeText, jobDescription)),
      WhyCompany(position), KeySkillsPhrase(SkillList(resumeText, jobDescription)));
  }

  /** The built-in template, filled for a company and position without
      `{{`, is its literal text with every placeholder filled: no `{{` is
      left, it opens with the greeting and it ends with the sign-off. */
  lemma {:induction false} DefaultLetter(resumeText: String, jobDescription: String, companyName: String, positionTitle: String)
    requires NoDoubleBrace(companyName) && NoDoubleBrace(positionTitle)
    ensures var position := PositionOrDefault(positionTitle);
      var letter := ComposeLetter(DefaultTemplate, resumeText, jobDescription, companyName, positionTitle);
      letter == Render(TemplateLits, DefaultFilling(position, CompanyOrDefault(companyName),
        ExperienceSection(ExperienceMatches(resumeText, jobDescription)),
        WhyCompany(position), KeySkillsPhrase(SkillList(resumeText, jobDescription)))) &&
      NoDoubleBrace(letter) &&
      |TemplateText0| <= |letter| && letter[..|TemplateText0|] == TemplateText0 &&
      |TemplateText6| <= |letter| && letter[|letter| - |TemplateText6|..] == TemplateText6
  {
    DefaultTemplateShape();
    TemplateWellFormed();
    LayoutLetter(TemplateLits, resumeText, jobDescription, companyName, positionTitle);
  }

  /** None of the five values put into the template holds `{{` when the
      company and position given do not. */
  lemma {:induction false} LetterValuesPlain(resumeText: String, jobDescription: String, companyName: String, positionTitle: String)
    requires NoDoubleBrace(companyName) && NoDoubleBrace(positionTitle)
    ensures var position := PositionOrDefault(positionTitle);
      NoDoubleBrace(position) && NoDoubleBrace(CompanyOrDefault(companyName)) &&
      NoDoubleBrace(ExperienceSection(ExperienceMatches(resumeText, jobDescription))) &&
      NoDoubleBrace(WhyCompany(position)) &&
      NoDoubleBrace(KeySkillsPhrase(SkillList(resumeText, jobDescription)))
  {
    var position := PositionOrDefault(positionTitle);
    NoDoubleBraceLiteral(DefaultPosition);
    NoDoubleBraceLiteral(DefaultCompany);
    ExperienceSectionNoBrace(resumeText, jobDescription);
    NoDoubleBraceLiteral(ExperienceSection(ExperienceMatches(resumeText, jobDescription)));
    KeySkillsNoBrace(resumeText, jobDescription);
    NoDoubleBraceLiteral(KeySkillsPhrase(SkillList(resumeText, jobDescription)));
    WhyLeadPlain();
    NoCharFromNotIn(WhyLead, '{');
    NoDoubleBraceLiteral(WhyLead);
    LowerNoDoubleBrace(position);
    NoDoubleBraceAppend(WhyLead, Lower(position));
  }

  // ---------------------------------------------------------------------
  // Saving and the returned message
  // ---------------------------------------------------------------------

  /** How a file-system step ended; `reason` is the text of the exception. */
  datatype WriteOutcome = Written | WriteFailed(reason: String)

  /** The save step as written: the directory part of the path is created
      first, even when it is empty, and creating `''` always fails.
      `makeDirs` and `writeFile` are how creating a non-empty directory and
      writing the file end. */
  function SaveAsWritten(outputFile: String, makeDirs: WriteOutcome, writeFile: WriteOutcome): WriteOutcome {
    if Dirname(outputFile) == [] then WriteFailed(EmptyPathError)
    else if makeDirs.WriteFailed? then makeDirs
    else writeFile
  }

  /** The save step as intended: the directory is created only when the path
      names one. */
  function Save(outputFile: String, makeDirs: WriteOutcome, writeFile: WriteOutcome): WriteOutcome {
    if Dirname(outputFile) != [] && makeDirs.WriteFailed? then makeDirs else writeFile
  }

  /** As written, a file name without a directory part is never saved. */
  lemma {:induction false} BareFileNameNeverSavedAsWritten(outputFile: String, makeDirs: WriteOutcome, writeFile: WriteOutcome)
    requires NoChar(outputFile, '/')
    ensures SaveAsWritten(outputFile, makeDirs, writeFile) == WriteFailed(EmptyPathError)
  {
  }

  lemma SaveAsWrittenCounterexample()
    ensures SaveAsWritten("cover_letter.txt", Written, Written) == WriteFailed(EmptyPathError)
    ensures Save("cover_letter.txt", Written, Written) == Written
  {
    assert NoChar("cover_letter.txt", '/');
  }

  /** Corrected, a bare file name is saved exactly when writing it works. */
  lemma {:induction false} BareFileNameSaved(outputFile: String, makeDirs: WriteOutcome, writeFile: WriteOutcome)
    requires NoChar(outputFile, '/')
    ensures Save(outputFile, makeDirs, writeFile) == writeFile
  {
  }

  /** The correction changes nothing for a path with a directory part. */
  lemma {:induction false} SaveAgreesOnDirectories(outputFile: String, makeDirs: WriteOutcome, writeFile: WriteOutcome)
    ensures SaveAsWritten(outputFile, makeDirs, writeFile) == Save(outputFile, makeDirs, writeFile)
      <==> !NoChar(outputFile, '/') || writeFile == WriteFailed(EmptyPathError)
  {
  }

  /** The text returned to the caller. */
  function Report(outputFile: String, saved: WriteOutcome, letter: String): String {
    if outputFile == [] then GeneratedLead + ":\n\n" + letter
    else match saved
      case Written => GeneratedLead + " and saved to " + outputFile + ":\n\n" + letter
      case WriteFailed(reason) =>
        GeneratedLead + " but failed to save to " + outputFile + ": " + reason + "\n\n" + letter
  }

  /** For a bare file name the program as written always reports the
      `makedirs('')` failure, whereas the corrected save step (the one
      `GenerateCoverLetter` uses) reports how writing the file ended. */
  lemma {:induction false} BareFileNameReport(outputFile: String, makeDirs: WriteOutcome, writeFile: WriteOutcome,
                                              letter: String)
    requires outputFile != [] && NoChar(outputFile, '/')
    ensures Report(outputFile, SaveAsWritten(outputFile, makeDirs, writeFile), letter) ==
      GeneratedLead + " but failed to save to " + outputFile + ": " + EmptyPathError + "\n\n" + letter
    ensures Report(outputFile, Save(outputFile, makeDirs, writeFile), letter) == Report(outputFile, writeFile, letter)
  {
    BareFileNameNeverSavedAsWritten(outputFile, makeDirs, writeFile);
    BareFileNameSaved(outputFile, makeDirs, writeFile);
  }

  /** Every message starts with the same words and ends with a blank line and
      the whole letter; the character after the shared words tells whether no
      file was asked for (`:`) and the one after it whether the file was
      saved (`a` of "and") or not (`b` of "but"). */
  lemma {:induction false} ReportShape(outputFile: String, saved: WriteOutcome, letter: String)
    ensures var r := Report(outputFile, saved, letter);
      |GeneratedLead| + 2 + |letter| <= |r| &&
      r[..|GeneratedLead|] == GeneratedLead &&
      r[|r| - |letter| - 2..] == "\n\n" + letter &&
      (r[|GeneratedLead|] == ':' <==> outputFile == []) &&
      (r[|GeneratedLead| + 1] == 'a' <==> outputFile != [] && saved == Written) &&
      (r[|GeneratedLead| + 1] == 'b' <==> outputFile != [] && saved.WriteFailed?)
  {
    var r := Report(outputFile, saved, letter);
    var n := |GeneratedLead|;
    if outputFile == [] {
      assert r == GeneratedLead + (":\n\n" + letter);
      assert r[n] == ':' && r[n + 1] == '\n';
    } else if saved == Written {
      var mid := " and saved to " + outputFile + ":";
      assert r == GeneratedLead + mid + ("\n\n" + letter);
      assert r[n] == ' ' && r[n + 1] == 'a';
    } else {
      var mid := " but failed to save to " + outputFile + ": " + saved.reason;
      assert r == GeneratedLead + mid + ("\n\n" + letter);
      assert r[n] == ' ' && r[n + 1] == 'b';
    }
  }

  // ---------------------------------------------------------------------
  // The tool object
  // ---------------------------------------------------------------------

  class CoverLetterTool {
    var coverLetterTemplate: String

    constructor()
      ensures coverLetterTemplate == DefaultTemplate
    {
      coverLetterTemplate := DefaultTemplate;
    }

    /** The keyword scan of `_extract_relevant_experience`. */
    method ExtractRelevantExperience(resumeText: String, jobDescription: String) returns (section: String)
      ensures section == ExperienceSection(ExperienceMatches(resumeText, jobDescription))
    {
      var resumeLower := Lower(resumeText);
      var jobLower := Lower(jobDescription);
      var matchingSkills: seq<String> := [];
      for i := 0 to |TechKeywords|
        invariant matchingSkills == Matches(TechKeywords[..i], resumeLower, jobLower)
      {
        var keyword := TechKeywords[i];
        MatchesPrefixStep(TechKeywords, i, resumeLower, jobLower);
        if Contains(jobLower, keyword) && Contains(resumeLower, keyword) {
          matchingSkills := matchingSkills + [keyword];
        }
      }
      assert TechKeywords[..|TechKeywords|] == TechKeywords;
      if |matchingSkills| > 0 {
        section := ExperienceLead + Join(Take(matchingSkills, ExperienceLimit), ", ") + ExperienceTail;
      } else {
        section := ExperienceFallback;
      }
    }

    /** The two keyword scans of `_extract_key_skills`. */
    method ExtractKeySkills(resumeText: String, jobDescription: String) returns (phrase: String)
      ensures phrase == KeySkillsPhrase(SkillList(resumeText, jobDescription))
    {
      var resumeLower := Lower(resumeText);
      var jobLower := Lower(jobDescription);
      var skills: seq<String> := [];
      for i := 0 to |ProgLangs|
        invariant skills == TitleAll(Matches(ProgLangs[..i], resumeLower, jobLower))
      {
        var lang := ProgLangs[i];
        MatchesPrefixStep(ProgLangs, i, resumeLower, jobLower);
        if Contains(jobLower, lang) && Contains(resumeLower, lang) {
          TitleAllSnoc(Matches(ProgLangs[..i], resumeLower, jobLower), lang);
          skills := skills + [Title(lang)];
        }
      }
      assert ProgLangs[..|ProgLangs|] == ProgLangs;
      ghost var languages := skills;
      for i := 0 to |Techs|
        invariant skills == languages + Matches(Techs[..i], resumeLower, jobLower)
      {
        var tech := Techs[i];
        MatchesPrefixStep(Techs, i, resumeLower, jobLower);
        if Contains(jobLower, tech) && Contains(resumeLower, tech) {
          skills := skills + [tech];
        }
      }
      assert Techs[..|Techs|] == Techs;
      if |skills| > 0 {
        phrase := Join(Take(skills, SkillsLimit), ", ");
      } else {
        phrase := SkillsFallback;
      }
    }

    /** `generate_cover_letter`: fill the current template, then save the
        letter when a path is given. `makeDirs` and `writeFile` stand for how
        the two file-system steps end. */
    method GenerateCoverLetter(resumeText: String, jobDescription: String, companyName: String,
                               positionTitle: String, outputFile: String,
                               makeDirs: WriteOutcome, writeFile: WriteOutcome)
      returns (message: String)
      ensures message == Report(outputFile, Save(outputFile, makeDirs, writeFile),
        ComposeLetter(coverLetterTemplate, resumeText, jobDescription, companyName, positionTitle))
    {
      var company := if companyName != [] then companyName else DefaultCompany;
      var position := if positionTitle != [] then positionTitle else DefaultPosition;
      var coverLetter := coverLetterTemplate;
      coverLetter := Replace(coverLetter, Token("position"), position);
      coverLetter := Replace(coverLetter, Token("company"), company);
      var experienceSection := ExtractRelevantExperience(resumeText, jobDescription);
      coverLetter := Replace(coverLetter, Token("relevant_experience"), experienceSection);
      var whyCompany := WhyLead + Lower(position);
      coverLetter := Replace(coverLetter, Token("why_company"), whyCompany);
      var keySkills := ExtractKeySkills(resumeText, jobDescription);
      coverLetter := Replace(coverLetter, Token("key_skills"), keySkills);
      if outputFile != [] {
        var saved := Save(outputFile, makeDirs, writeFile);
        match saved
        case Written =>
          message := GeneratedLead + " and saved to " + outputFile + ":\n\n" + coverLetter;
        case WriteFailed(reason) =>
          message := GeneratedLead + " but failed to save to " + outputFile + ": " + reason + "\n\n" + coverLetter;
      } else {
        message := GeneratedLead + ":\n\n" + coverLetter;
      }
    }

    /** `get_template`: the header, then the current template verbatim. */
    function GetTemplate(): (r: String)
      reads this
      ensures |r| == |TemplateHeader| + |coverLetterTemplate|
      ensures r[..|TemplateHeader|] == TemplateHeader && r[|TemplateHeader|..] == coverLetterTemplate
    {
      TemplateHeader + coverLetterTemplate
    }

    /** `set_template`: any text is accepted, placeholders or not. */
    method SetTemplate(newTemplate: String) returns (message: String)
      modifies this
      ensures coverLetterTemplate == newTemplate
      ensures GetTemplate() == TemplateHeader + newTemplate
      ensures message == TemplateUpdated
    {
      coverLetterTemplate := newTemplate;
      message := TemplateUpdated;
    }
  }
}
