/**
 * extractKeywords of the job analyser: dictionary hits (normalised), then the
 * captures of four phrase-trigger regexes, deduplicated with the first occurrence
 * winning; the technical list is cut to 25 entries. The regex engine is a
 * parameter: `WordTest(pattern, text)` is `new RegExp("\\b" + pattern + "\\b", "i").test(text)`
 * and `CaptureScan(trigger, text)` lists group 1 of each successive `exec` in order.
 */
module KeywordExtraction {
  import opened Strings
  import opened Seqs
  import SkillDictionary
  import opened KeywordNormalizer

  type WordTest = (String, String) -> bool

  /** The phrase triggers, in the order they are tried. */
  datatype Trigger =
    | ExperienceWith   // erfaring med / experience with / knowledge of / skilled in / ...
    | YouAreSkilled    // du er / du har / you are / you have + dygtig / skilled / proficient
    | KnowledgeAbout   // viden om / kendskab til / knowledge of
    | WorksWith        // arbejder med / works with / using / ved brug af

  const Triggers: seq<Trigger> := [ExperienceWith, YouAreSkilled, KnowledgeAbout, WorksWith]

  type CaptureScan = (Trigger, String) -> seq<String>

  const StopWords: seq<String> := ["the", "and", "with", "for", "that", "this", "from"]

  const MaxTechnical: nat := 25

  datatype Keywords = Keywords(technical: seq<String>, soft: seq<String>)

  /** A trimmed capture is kept when it is longer than two and not a stopword. */
  predicate KeepsCapture(skill: String) {
    |skill| > 2 && ToLower(skill) !in StopWords
  }

  function MatchesIn(matches: WordTest, text: String): String -> bool {
    skill => matches(skill, ToLower(text))
  }

  /** The dictionary entries the text mentions, normalised, in dictionary order. */
  function TechnicalHits(text: String, matches: WordTest): seq<String> {
    Map(Filter(SkillDictionary.TechnicalSkills, MatchesIn(matches, text)), NormalizeTechnical)
  }

  function SoftHits(text: String, matches: WordTest): seq<String> {
    Map(Filter(SkillDictionary.SoftSkills, MatchesIn(matches, text)), NormalizeSoft)
  }

  /** The captures of one trigger that survive trimming and the stopword filter. */
  function KeptCaptures(captures: seq<String>): seq<String> {
    Filter(Map(captures, Trim), KeepsCapture)
  }

  lemma KeptCapturesSnoc(captures: seq<String>, j: nat)
    requires j < |captures|
    ensures KeptCaptures(captures[..j + 1]) == KeptCaptures(captures[..j])
      + (if KeepsCapture(Trim(captures[j])) then [Trim(captures[j])] else [])
  {
    assert captures[..j + 1] == captures[..j] + [captures[j]];
    MapConcat(captures[..j], [captures[j]], Trim);
    assert Map([captures[j]], Trim) == [Trim(captures[j])];
    FilterSnoc(Map(captures[..j], Trim), Trim(captures[j]), KeepsCapture);
  }

  /** The kept captures of a trigger on this text. */
  function KeptBy(text: String, scan: CaptureScan): Trigger -> seq<String> {
    t => KeptCaptures(scan(t, text))
  }

  function SmartExtracted(text: String, scan: CaptureScan): seq<String> {
    FlatMap(Triggers, KeptBy(text, scan))
  }

  /** What extractKeywords returns. */
  function KeywordsOf(text: String, matches: WordTest, scan: CaptureScan): Keywords {
    Keywords(Take(Unique(TechnicalHits(text, matches) + SmartExtracted(text, scan)), MaxTechnical),
             Unique(SoftHits(text, matches)))
  }

  /**
   * The inner `while ((match = pattern.exec(text)) !== null)` loop of one trigger:
   * trim each capture and push it when it passes the filter.
   */
  method KeepTriggerCaptures(captures: seq<String>) returns (kept: seq<String>)
    ensures kept == KeptCaptures(captures)
  {
    kept := [];
    var j := 0;
    assert KeptCaptures(captures[..0]) == [] by { assert captures[..0] == []; }
    while j < |captures|
      invariant 0 <= j <= |captures|
      invariant kept == KeptCaptures(captures[..j])
    {
      var skill := Trim(captures[j]);
      KeptCapturesSnoc(captures, j);
      if KeepsCapture(skill) {
        kept := kept + [skill];
      }
      j := j + 1;
    }
    assert captures[..j] == captures;
  }

  /** extractKeywords: the loop over the triggers, then the Set and the cap. */
  method ExtractKeywords(text: String, matches: WordTest, scan: CaptureScan) returns (k: Keywords)
    ensures k == KeywordsOf(text, matches, scan)
  {
    var foundTechnical := TechnicalHits(text, matches);
    var foundSoft := SoftHits(text, matches);
    var smart: seq<String> := [];
    var p := 0;
    while p < |Triggers|
      invariant 0 <= p <= |Triggers|
      invariant smart == FlatMap(Triggers[..p], KeptBy(text, scan))
    {
      var kept := KeepTriggerCaptures(scan(Triggers[p], text));
      smart := smart + kept;
      FlatMapSnoc(Triggers, p, KeptBy(text, scan));
      p := p + 1;
    }
    assert Triggers[..p] == Triggers;
    k := Keywords(Take(Unique(foundTechnical + smart), MaxTechnical), Unique(foundSoft));
  }

  /** At most 25 technical keywords, none repeated, and no soft skill repeated. */
  lemma KeywordsBounded(text: String, matches: WordTest, scan: CaptureScan)
    ensures |KeywordsOf(text, matches, scan).technical| <= MaxTechnical
    ensures NoDuplicates(KeywordsOf(text, matches, scan).technical)
    ensures NoDuplicates(KeywordsOf(text, matches, scan).soft)
  {
    var all := Unique(TechnicalHits(text, matches) + SmartExtracted(text, scan));
    UniqueSpec(TechnicalHits(text, matches) + SmartExtracted(text, scan));
    UniqueSpec(SoftHits(text, matches));
    var t := Take(all, MaxTechnical);
    assert t == all[..|t|];
    forall i, j | 0 <= i < j < |t| ensures t[i] != t[j] {
      assert t[i] == all[i] && t[j] == all[j];
    }
  }

  /**
   * Dictionary hits come first, in dictionary order and deduplicated, followed by
   * the phrase captures not already present, in discovery order and deduplicated.
   */
  lemma KeywordsOrder(text: String, matches: WordTest, scan: CaptureScan)
    ensures var hits := TechnicalHits(text, matches);
      KeywordsOf(text, matches, scan).technical
        == Take(Unique(hits) + Filter(Unique(SmartExtracted(text, scan)), NotIn(hits)), MaxTechnical)
    ensures IsSubseq(TechnicalHits(text, matches), Map(SkillDictionary.TechnicalSkills, NormalizeTechnical))
  {
    UniqueConcat(TechnicalHits(text, matches), SmartExtracted(text, scan));
    FilterIsSubseq(SkillDictionary.TechnicalSkills, MatchesIn(matches, text));
    SubseqMap(Filter(SkillDictionary.TechnicalSkills, MatchesIn(matches, text)),
              SkillDictionary.TechnicalSkills, NormalizeTechnical);
  }

  /** A dictionary hit never carries a backslash into the keyword list. */
  lemma HitsHaveNoBackslash(text: String, matches: WordTest)
    ensures forall s :: s in TechnicalHits(text, matches) ==> '\\' !in s
    ensures forall s :: s in SoftHits(text, matches) ==> '\\' !in s
  {
    var ft := Filter(SkillDictionary.TechnicalSkills, MatchesIn(matches, text));
    var fs := Filter(SkillDictionary.SoftSkills, MatchesIn(matches, text));
    forall s | s in TechnicalHits(text, matches) ensures '\\' !in s {
      var k :| 0 <= k < |ft| && TechnicalHits(text, matches)[k] == s;
      FilterMembers(SkillDictionary.TechnicalSkills, MatchesIn(matches, text), ft[k]);
      DictionaryNormalizesClean(ft[k]);
    }
    forall s | s in SoftHits(text, matches) ensures '\\' !in s {
      var k :| 0 <= k < |fs| && SoftHits(text, matches)[k] == s;
      FilterMembers(SkillDictionary.SoftSkills, MatchesIn(matches, text), fs[k]);
      DictionaryNormalizesClean(fs[k]);
    }
  }

  /** A string is kept from one trigger's captures iff some capture trims to it and it passes. */
  lemma KeptCapturesMembers(captures: seq<String>, x: String)
    ensures x in KeptCaptures(captures) <==>
      KeepsCapture(x) && exists i :: 0 <= i < |captures| && Trim(captures[i]) == x
  {
    FilterMembers(Map(captures, Trim), KeepsCapture, x);
    if x in Map(captures, Trim) {
      var i :| 0 <= i < |captures| && Map(captures, Trim)[i] == x;
    }
  }

  /**
   * A string is among the phrase captures exactly when some trigger captured text
   * that trims to it, and it is longer than two characters and no stopword
   * (compared case-insensitively).
   */
  lemma SmartExtractedMembers(text: String, scan: CaptureScan, x: String)
    ensures x in SmartExtracted(text, scan) <==>
      KeepsCapture(x) && exists k, i ::
        0 <= k < |Triggers| && 0 <= i < |scan(Triggers[k], text)| && Trim(scan(Triggers[k], text)[i]) == x
  {
    FlatMapMembers(Triggers, KeptBy(text, scan), x);
    forall k | 0 <= k < |Triggers| {
      KeptCapturesMembers(scan(Triggers[k], text), x);
    }
  }

  /** Every phrase capture is trimmed and passes the length and stopword filter. */
  lemma CapturesKept(text: String, scan: CaptureScan)
    ensures forall x :: x in SmartExtracted(text, scan) ==> KeepsCapture(x) && IsTrimmed(x)
  {
    forall x | x in SmartExtracted(text, scan) ensures KeepsCapture(x) && IsTrimmed(x) {
      SmartExtractedMembers(text, scan, x);
    }
  }

  /** The stopword test ignores case: "The" and "THIS" are dropped like "the". */
  lemma StopWordsIgnoreCase()
    ensures !KeepsCapture("The") && !KeepsCapture("THIS") && KeepsCapture("Docker")
  {
    assert ToLower("The") == "the";
    assert ToLower("THIS") == "this";
    assert ToLower("Docker") == "docker";
  }
}
