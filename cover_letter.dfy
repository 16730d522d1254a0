/**
 * generateCoverLetter of the job analyser: the company name found by the first of
 * three patterns whose first group is non-empty, the keyword lists matched and not
 * matched against the whole profile (here `other` does count), and the letter's
 * optional sentences. The company patterns are a parameter: `find(pattern, text)`
 * is group 1 of `text.match(pattern)`, `None` when there is no match or no group.
 */
module CoverLetter {
  import opened Wrappers
  import opened Strings
  import opened Seqs
  import opened MatchScoring
  import KeywordExtraction

  /** The company patterns, in the order they are tried. */
  datatype CompanyPattern =
    | HosAt        // (hos|at) <Name> followed by `.`, `,`, er, is, søger, seeks
    | NameSeeks    // <Name> søger / is looking for / is seeking
    | PositionAt   // position at|hos <Name>

  const CompanyPatterns: seq<CompanyPattern> := [HosAt, NameSeeks, PositionAt]

  type CompanyFind = (CompanyPattern, String) -> Option<String>

  const DefaultCompany: String := "your company"
  const MaxMatched: nat := 6
  const MaxNew: nat := 3

  datatype Experience = Experience(
    position: String,
    company: String,
    responsibilities: seq<String>,
    achievements: seq<String>)

  datatype Education = Education(institution: String, degree: String)

  datatype Resume = Resume(
    name: String,
    email: String,
    phone: String,
    summary: String,
    experience: seq<Experience>,
    education: seq<Education>,
    skills: Skills)

  /** `match && match[1]`: a match whose first group is a non-empty string. */
  predicate Captured(m: Option<String>) {
    m.Some? && m.value != []
  }

  /** The trimmed group of the first pattern (from `from` on) that captures, else the default. */
  function CompanyFrom(text: String, find: CompanyFind, from: nat): String
    requires from <= |CompanyPatterns|
    decreases |CompanyPatterns| - from
  {
    if from == |CompanyPatterns| then DefaultCompany
    else if Captured(find(CompanyPatterns[from], text)) then Trim(find(CompanyPatterns[from], text).value)
    else CompanyFrom(text, find, from + 1)
  }

  function CompanyName(text: String, find: CompanyFind): String {
    CompanyFrom(text, find, 0)
  }

  /** No pattern captures: the letter addresses "your company". */
  lemma CompanyDefault(text: String, find: CompanyFind)
    requires forall k :: 0 <= k < |CompanyPatterns| ==> !Captured(find(CompanyPatterns[k], text))
    ensures CompanyName(text, find) == DefaultCompany
  {
  }

  /** The first capturing pattern decides, whatever the later ones capture. */
  lemma {:induction false} CompanyFirstWins(text: String, find: CompanyFind, k: nat)
    requires k < |CompanyPatterns| && Captured(find(CompanyPatterns[k], text))
    requires forall j :: 0 <= j < k ==> !Captured(find(CompanyPatterns[j], text))
    ensures CompanyName(text, find) == Trim(find(CompanyPatterns[k], text).value)
  {
    CompanyFromSkips(text, find, 0, k);
  }

  lemma {:induction false} CompanyFromSkips(text: String, find: CompanyFind, from: nat, k: nat)
    requires from <= k < |CompanyPatterns| && Captured(find(CompanyPatterns[k], text))
    requires forall j :: from <= j < k ==> !Captured(find(CompanyPatterns[j], text))
    ensures CompanyFrom(text, find, from) == Trim(find(CompanyPatterns[k], text).value)
    decreases k - from
  {
    if from < k {
      CompanyFromSkips(text, find, from + 1, k);
    }
  }

  /** Every profile skill, `other` included, lowercased. */
  function LetterSkills(skills: Skills): seq<String> {
    Map(skills.languages + skills.frontend + skills.backend + skills.tools + skills.other.GetOr([]), ToLower)
  }

  /** The letter's test: inclusion either way, or equality. */
  predicate LetterMatched(resume: seq<String>, skill: String) {
    exists i :: 0 <= i < |resume| &&
      (Contains(resume[i], ToLower(skill)) || Contains(ToLower(skill), resume[i]) || resume[i] == ToLower(skill))
  }

  function LetterMatchedBy(resume: seq<String>): String -> bool {
    skill => LetterMatched(resume, skill)
  }

  function NotMatchedBy(resume: seq<String>): String -> bool {
    skill => !SkillMatched(resume, skill)
  }

  /** The keywords to claim experience with. */
  function MatchedSkills(technical: seq<String>, skills: Skills): seq<String> {
    Take(Filter(technical, LetterMatchedBy(LetterSkills(skills))), MaxMatched)
  }

  /** The keywords to promise to learn. */
  function NewSkills(technical: seq<String>, skills: Skills): seq<String> {
    Take(Filter(technical, NotMatchedBy(LetterSkills(skills))), MaxNew)
  }

  /** The equality test adds nothing: it is the same relation as the score's. */
  lemma LetterMatchedIsRelated(resume: seq<String>, skill: String)
    ensures LetterMatched(resume, skill) <==> SkillMatched(resume, skill)
  {
    if LetterMatched(resume, skill) {
      var i :| 0 <= i < |resume| &&
        (Contains(resume[i], ToLower(skill)) || Contains(ToLower(skill), resume[i]) || resume[i] == ToLower(skill));
      if resume[i] == ToLower(skill) {
        ContainsSelf(resume[i]);
      }
      assert Related(resume[i], ToLower(skill));
    }
  }

  lemma TakeFilterSubseq(s: seq<String>, p: String -> bool, n: nat)
    ensures IsSubseq(Take(Filter(s, p), n), s)
  {
    TakeIsSubseq(Filter(s, p), n);
    FilterIsSubseq(s, p);
    SubseqTrans(Take(Filter(s, p), n), Filter(s, p), s);
  }

  /**
   * At most six matched and three new keywords, each list an order-preserving
   * subsequence of the technical keywords, and no keyword in both.
   */
  lemma SkillListsShape(technical: seq<String>, skills: Skills)
    ensures |MatchedSkills(technical, skills)| <= MaxMatched && |NewSkills(technical, skills)| <= MaxNew
    ensures IsSubseq(MatchedSkills(technical, skills), technical)
    ensures IsSubseq(NewSkills(technical, skills), technical)
    ensures forall x :: x in MatchedSkills(technical, skills) ==> x !in NewSkills(technical, skills)
  {
    var resume := LetterSkills(skills);
    TakeFilterSubseq(technical, LetterMatchedBy(resume), MaxMatched);
    TakeFilterSubseq(technical, NotMatchedBy(resume), MaxNew);
    forall x | x in MatchedSkills(technical, skills) ensures x !in NewSkills(technical, skills) {
      var f := Filter(technical, LetterMatchedBy(resume));
      var i :| 0 <= i < |MatchedSkills(technical, skills)| && MatchedSkills(technical, skills)[i] == x;
      assert f[i] == x;
      LetterMatchedIsRelated(resume, x);
    }
  }

  /** Each keyword is matched or new in the letter, according to the whole profile. */
  lemma SkillListsCover(technical: seq<String>, skills: Skills, x: String)
    requires x in technical
    ensures x in Filter(technical, LetterMatchedBy(LetterSkills(skills))) <==> SkillMatched(LetterSkills(skills), x)
    ensures x in Filter(technical, NotMatchedBy(LetterSkills(skills))) <==> !SkillMatched(LetterSkills(skills), x)
  {
    LetterMatchedIsRelated(LetterSkills(skills), x);
    FilterMembers(technical, LetterMatchedBy(LetterSkills(skills)), x);
    FilterMembers(technical, NotMatchedBy(LetterSkills(skills)), x);
  }

  /**
   * The `other` skills count for the letter but not for the score: with "docker"
   * only among them, the letter claims Docker while the score is 0.
   */
  lemma OtherCountsForLetterOnly()
    ensures var skills := Skills([], [], [], [], Some(["Docker"]));
      MatchedSkills(["docker"], skills) == ["docker"] && MatchScore(["docker"], skills) == 0
  {
    var skills := Skills([], [], [], [], Some(["Docker"]));
    assert ToLower("Docker") == "docker";
    assert LetterSkills(skills) == ["docker"];
    assert LetterSkills(skills)[0] == ToLower("docker");
    ContainsSelf("docker");
    assert LetterMatched(LetterSkills(skills), "docker");
    assert Filter(["docker"], LetterMatchedBy(LetterSkills(skills))) == ["docker"];
    assert ScoredSkills(skills) == [];
    ScoreNoneMatched(["docker"], skills);
  }

  const NoExperienceParagraph: String :=
    "Through my studies and projects, I have developed strong practical skills in software development."

  function RolePhrase(position: String): String {
    "During my recent role as " + position
  }

  /** The experience paragraph, written from the most recent role when there is one. */
  function ExperienceParagraph(latest: Option<Experience>): (r: String)
    ensures latest.None? ==> r == NoExperienceParagraph
    ensures latest.Some? ==> StartsWith(r, RolePhrase(latest.value.position))
  {
    match latest
    case None => NoExperienceParagraph
    case Some(e) =>
      var achievements := Take(e.achievements, 2);
      var tail := " at " + e.company + ", I gained valuable hands-on experience with "
        + ToLower(Join(Take(e.responsibilities, 2), " and ")) + ". "
        + (if |achievements| > 0 then achievements[0] else "");
      StartsWithConcat(RolePhrase(e.position), tail);
      RolePhrase(e.position) + tail
  }

  /** The sentence that names the job's focus and the matched skills, if any. */
  function SkillsSentence(technical: seq<String>, matched: seq<String>, skills: Skills): String {
    "I noticed that this position emphasizes " + Join(Take(technical, 3), ", ")
    + (if |matched| > 0
       then ". I have direct experience working with " + Join(matched, ", ") + ", which I have applied in real-world projects"
       else "")
    + ". My technical foundation includes proficiency in "
    + Join(Take(skills.languages, 3) + Take(skills.frontend, 2), ", ")
    + ", and I continuously expand my knowledge to stay current with industry best practices."
  }

  /** Present exactly when there are new skills to mention. */
  function NewSkillsParagraph(newSkills: seq<String>): (r: String)
    ensures r == [] <==> newSkills == []
  {
    if |newSkills| > 0
    then "I am particularly excited about the opportunity to deepen my expertise in " + Join(newSkills, ", ")
      + ", and I am committed to quickly mastering any technologies that are new to me."
    else ""
  }

  const StockClosingLine: String :=
    "I thrive in collaborative environments and take pride in delivering high-quality, maintainable code."

  /** The second achievement of the latest role when it is a non-empty string, else a stock line. */
  function ClosingLine(latest: Option<Experience>): (r: String)
    ensures latest.Some? && |latest.value.achievements| > 1 && latest.value.achievements[1] != []
      ==> r == latest.value.achievements[1]
    ensures !(latest.Some? && |latest.value.achievements| > 1 && latest.value.achievements[1] != [])
      ==> r == StockClosingLine
  {
    var achievements := if latest.Some? then Take(latest.value.achievements, 2) else [];
    if |achievements| > 1 && achievements[1] != [] then achievements[1] else StockClosingLine
  }

  /** Present exactly when soft skills were found; names at most three of them. */
  function SoftParagraph(soft: seq<String>): (r: String)
    ensures r == [] <==> soft == []
  {
    if |soft| > 0
    then "I believe my " + Join(Take(soft, 3), ", ") + " approach aligns well with your team's values and work culture."
    else ""
  }

  const ClosingParagraphs: String :=
    "I am confident that my technical skills, proven ability to learn quickly, and dedication to excellence "
    + "would make me a valuable addition to your team. I would welcome the opportunity to discuss how my "
    + "background aligns with your needs.\n\nThank you for considering my application. I look forward to "
    + "the possibility of speaking with you further.\n\nBest regards,\n"

  function Opening(company: String): String {
    "Dear Hiring Manager,\n\nI am writing to express my strong interest in the position at " + company + ". "
  }

  function Signature(resume: Resume): String {
    ClosingParagraphs + resume.name + "\n" + resume.email + "\n" + resume.phone
  }

  /** The letter after the opening line and before the signature. */
  function Body(keywords: KeywordExtraction.Keywords, resume: Resume): String
    requires |resume.education| > 0
  {
    var latest := if |resume.experience| > 0 then Some(resume.experience[0]) else None;
    var education := resume.education[0];
    resume.summary + "\n\n"
    + ExperienceParagraph(latest) + "\n\n"
    + SkillsSentence(keywords.technical, MatchedSkills(keywords.technical, resume.skills), resume.skills) + "\n\n"
    + NewSkillsParagraph(NewSkills(keywords.technical, resume.skills)) + "\n\n"
    + "My education from " + education.institution + ", where I completed " + education.degree
    + ", combined with my professional experience, has equipped me with a solid foundation in software development principles. "
    + ClosingLine(latest) + "\n\n"
    + SoftParagraph(keywords.soft) + "\n\n"
  }

  /** The whole letter for a given company name. */
  function Letter(company: String, keywords: KeywordExtraction.Keywords, resume: Resume): String
    requires |resume.education| > 0
  {
    Opening(company) + Body(keywords, resume) + Signature(resume)
  }

  /** The letter opens by addressing the company and closes with the signature block. */
  lemma LetterFrame(company: String, keywords: KeywordExtraction.Keywords, resume: Resume)
    requires |resume.education| > 0
    ensures StartsWith(Letter(company, keywords, resume), Opening(company))
    ensures EndsWith(Letter(company, keywords, resume), Signature(resume))
  {
    var o, b, s := Opening(company), Body(keywords, resume), Signature(resume);
    ConcatEnds(o, b, s);
  }

  lemma ConcatEnds(o: String, b: String, s: String)
    ensures StartsWith(o + b + s, o)
    ensures EndsWith(o + b + s, s)
  {
  }

  /**
   * generateCoverLetter: the loop over the company patterns that stops at the
   * first capture, then the letter. The source reads `education[0]` unguarded.
   */
  method GenerateCoverLetter(jobText: String, keywords: KeywordExtraction.Keywords, resume: Resume, find: CompanyFind)
    returns (letter: String)
    requires |resume.education| > 0
    ensures letter == Letter(CompanyName(jobText, find), keywords, resume)
  {
    var companyName := DefaultCompany;
    var k := 0;
    while k < |CompanyPatterns|
      invariant 0 <= k <= |CompanyPatterns|
      invariant companyName == DefaultCompany
      invariant CompanyFrom(jobText, find, k) == CompanyName(jobText, find)
    {
      var m := find(CompanyPatterns[k], jobText);
      if Captured(m) {
        companyName := Trim(m.value);
        break;
      }
      k := k + 1;
    }
    letter := Letter(companyName, keywords, resume);
  }
}
