/**
 * calculateMatchScore of the job analyser (the listing route has an identical copy):
 * the share of technical keywords that some profile skill relates to, as a rounded
 * percentage. A profile skill relates to a keyword when, both lowercased, either one
 * includes the other. Only languages, frontend, backend and tools are consulted.
 */
module MatchScoring {
  import opened Wrappers
  import opened Strings
  import opened Seqs

  /** The `skills` record of the resume. */
  datatype Skills = Skills(
    languages: seq<String>,
    frontend: seq<String>,
    backend: seq<String>,
    tools: seq<String>,
    other: Option<seq<String>>)

  /** The profile skills the score compares with, lowercased: `other` is not among them. */
  function ScoredSkills(skills: Skills): seq<String> {
    Map(skills.languages + skills.frontend + skills.backend + skills.tools, ToLower)
  }

  /** `rs.includes(skillLower) || skillLower.includes(rs)` */
  predicate Related(rs: String, skillLower: String) {
    Contains(rs, skillLower) || Contains(skillLower, rs)
  }

  /** `allResumeSkills.some(rs => ...)` for one keyword. */
  predicate SkillMatched(resume: seq<String>, skill: String) {
    exists i :: 0 <= i < |resume| && Related(resume[i], ToLower(skill))
  }

  function MatchedBy(resume: seq<String>): String -> bool {
    skill => SkillMatched(resume, skill)
  }

  /** The matched keywords, in keyword order and with their repetitions. */
  function MatchedKeywords(technical: seq<String>, resume: seq<String>): seq<String> {
    Filter(technical, MatchedBy(resume))
  }

  /**
   * `Math.round(m / n * 100)`: the integer nearest to 100m/n, halves rounded up,
   * that is the `r` with r - 1/2 <= 100m/n < r + 1/2.
   */
  function RoundPercent(m: nat, n: nat): (r: nat)
    requires 0 < n && m <= n
    ensures r <= 100
    ensures 2 * n * r <= 200 * m + n < 2 * n * (r + 1)
  {
    DivBounds(200 * m + n, 2 * n);
    DivBelow(200 * m + n, 2 * n, 101);
    (200 * m + n) / (2 * n)
  }

  lemma DivBounds(x: nat, d: nat)
    requires 0 < d
    ensures d * (x / d) <= x < d * (x / d) + d
  {
    assert x == d * (x / d) + x % d;
  }

  lemma DivBelow(x: nat, d: nat, k: nat)
    requires 0 < d && x < d * k
    ensures x / d < k
  {
    DivBounds(x, d);
    if x / d >= k {
      MulMonotone(d, k, x / d);
    }
  }

  /** calculateMatchScore: 50 for an empty keyword list, otherwise the rounded share. */
  function MatchScore(technical: seq<String>, skills: Skills): (r: nat)
    ensures technical == [] ==> r == 50
    ensures r <= 100
  {
    if technical == [] then 50
    else RoundPercent(|MatchedKeywords(technical, ScoredSkills(skills))|, |technical|)
  }

  /** Every keyword related to some scored skill gives 100. */
  lemma ScoreAllMatched(technical: seq<String>, skills: Skills)
    requires technical != []
    requires forall k :: 0 <= k < |technical| ==> SkillMatched(ScoredSkills(skills), technical[k])
    ensures MatchScore(technical, skills) == 100
  {
    FilterAll(technical, MatchedBy(ScoredSkills(skills)));
    RoundPercentAll(|technical|);
  }

  /** No keyword related to any scored skill gives 0. */
  lemma ScoreNoneMatched(technical: seq<String>, skills: Skills)
    requires technical != []
    requires forall k :: 0 <= k < |technical| ==> !SkillMatched(ScoredSkills(skills), technical[k])
    ensures MatchScore(technical, skills) == 0
  {
    FilterNone(technical, MatchedBy(ScoredSkills(skills)));
    RoundPercentNone(|technical|);
  }

  lemma RoundPercentAll(n: nat)
    requires 0 < n
    ensures RoundPercent(n, n) == 100
  {
    var r := RoundPercent(n, n);
    if r < 100 {
      MulMonotone(2 * n, r + 1, 100);
    }
  }

  lemma RoundPercentNone(n: nat)
    requires 0 < n
    ensures RoundPercent(0, n) == 0
  {
    var r := RoundPercent(0, n);
    if r > 0 {
      MulMonotone(2 * n, 1, r);
    }
  }

  /** A keyword is matched exactly when some scored profile skill relates to it. */
  lemma MatchedKeywordsMembers(technical: seq<String>, skills: Skills, x: String)
    ensures x in MatchedKeywords(technical, ScoredSkills(skills)) <==>
      x in technical && exists p ::
        p in skills.languages + skills.frontend + skills.backend + skills.tools && Related(ToLower(p), ToLower(x))
  {
    var all := skills.languages + skills.frontend + skills.backend + skills.tools;
    FilterMembers(technical, MatchedBy(ScoredSkills(skills)), x);
    if SkillMatched(ScoredSkills(skills), x) {
      var i :| 0 <= i < |ScoredSkills(skills)| && Related(ScoredSkills(skills)[i], ToLower(x));
      assert all[i] in all && ScoredSkills(skills)[i] == ToLower(all[i]);
    }
    if exists p :: p in all && Related(ToLower(p), ToLower(x)) {
      var p :| p in all && Related(ToLower(p), ToLower(x));
      var i :| 0 <= i < |all| && all[i] == p;
      assert Related(ScoredSkills(skills)[i], ToLower(x));
    }
  }

  /** An empty skill is included in every keyword, so it matches every keyword. */
  lemma EmptySkillMatchesAll(technical: seq<String>, skills: Skills)
    requires technical != []
    requires "" in skills.languages + skills.frontend + skills.backend + skills.tools
    ensures MatchScore(technical, skills) == 100
  {
    var all := skills.languages + skills.frontend + skills.backend + skills.tools;
    var i :| 0 <= i < |all| && all[i] == "";
    assert ScoredSkills(skills)[i] == "";
    forall k | 0 <= k < |technical| ensures SkillMatched(ScoredSkills(skills), technical[k]) {
      ContainsEmpty(ToLower(technical[k]));
      assert Related(ScoredSkills(skills)[i], ToLower(technical[k]));
    }
    ScoreAllMatched(technical, skills);
  }

  /** The `other` skills never change the score. */
  lemma ScoreIgnoresOther(technical: seq<String>, skills: Skills, other: Option<seq<String>>)
    ensures MatchScore(technical, skills.(other := other)) == MatchScore(technical, skills)
  {
    assert ScoredSkills(skills.(other := other)) == ScoredSkills(skills);
  }

  /** The comparison ignores the keyword's case. */
  lemma MatchIgnoresKeywordCase(resume: seq<String>, skill: String)
    ensures SkillMatched(resume, ToLower(skill)) <==> SkillMatched(resume, skill)
  {
    ToLowerIdempotent(skill);
  }

  /** More matched keywords never lower the score: it is monotone in the match count. */
  lemma RoundPercentMonotone(m1: nat, m2: nat, n: nat)
    requires 0 < n && m1 <= m2 <= n
    ensures RoundPercent(m1, n) <= RoundPercent(m2, n)
  {
    var r1 := RoundPercent(m1, n);
    var r2 := RoundPercent(m2, n);
    if r1 > r2 {
      MulMonotone(2 * n, r2 + 1, r1);
    }
  }

  lemma MulMonotone(c: nat, a: int, b: int)
    requires a <= b
    ensures c * a <= c * b
  {
  }

  /** Half a keyword rounds up: one match out of two keywords scores 50, one of three 33. */
  lemma ScoreExamples()
    ensures RoundPercent(1, 2) == 50 && RoundPercent(1, 3) == 33 && RoundPercent(2, 3) == 67
    ensures RoundPercent(1, 8) == 13
  {
  }
}
