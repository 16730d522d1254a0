/**
 * The POST handler of the listing route: both feeds are read, merged and
 * deduplicated by URL, filtered to the Copenhagen area when a Copenhagen alias is
 * asked for, replaced by five demonstration jobs when nothing is left, scored
 * against the resume with the quick dictionary and ranked by score.
 *
 * Everything outside the handler's own logic is an `Environment` value: the feed
 * download (`None` when it throws), the tag lookup, the date conversion, the
 * location regexes, the clock, the dictionary word test and the resume file
 * (`None` when reading or parsing it throws).
 */
module JobListing {
  import opened Wrappers
  import opened Strings
  import opened Seqs
  import SkillDictionary
  import opened KeywordNormalizer
  import opened KeywordExtraction
  import opened MatchScoring
  import opened JobRecords
  import opened FeedItems

  // ---- quickExtractKeywords ----

  /** The quick dictionary hits of a text, normalised, first occurrence kept. */
  function QuickKeywords(text: String, matches: WordTest): seq<String> {
    Unique(Map(Filter(SkillDictionary.QuickSkills, MatchesIn(matches, text)), NormalizeTechnical))
  }

  /**
   * A deduplicated, order-preserving subsequence of the normalised quick dictionary,
   * with no backslash left in any keyword.
   */
  lemma QuickKeywordsShape(text: String, matches: WordTest)
    ensures NoDuplicates(QuickKeywords(text, matches))
    ensures IsSubseq(QuickKeywords(text, matches), Map(SkillDictionary.QuickSkills, NormalizeTechnical))
    ensures forall x :: x in QuickKeywords(text, matches) ==> '\\' !in x
  {
    QuickWellEscaped();
    HitsShape(SkillDictionary.QuickSkills, MatchesIn(matches, text));
  }

  /** The same three facts for the hits of any well-escaped dictionary. */
  lemma HitsShape(d: seq<String>, keep: String -> bool)
    requires AllWellEscaped(d)
    ensures NoDuplicates(Unique(Map(Filter(d, keep), NormalizeTechnical)))
    ensures IsSubseq(Unique(Map(Filter(d, keep), NormalizeTechnical)), Map(d, NormalizeTechnical))
    ensures forall x :: x in Unique(Map(Filter(d, keep), NormalizeTechnical)) ==> '\\' !in x
  {
    var hits := Filter(d, keep);
    var normal := Map(hits, NormalizeTechnical);
    UniqueSpec(normal);
    FilterIsSubseq(d, keep);
    SubseqMap(hits, d, NormalizeTechnical);
    SubseqTrans(Unique(normal), normal, Map(d, NormalizeTechnical));
    forall x | x in Unique(normal) ensures '\\' !in x {
      var k :| 0 <= k < |normal| && normal[k] == x;
      FilterMembers(d, keep, hits[k]);
      EntryNormalizesClean(d, hits[k]);
    }
  }

  /** A keyword is found exactly when some quick entry the text mentions normalises to it. */
  lemma QuickKeywordsMembers(text: String, matches: WordTest, x: String)
    ensures x in QuickKeywords(text, matches) <==>
      exists skill :: skill in SkillDictionary.QuickSkills && matches(skill, ToLower(text))
        && NormalizeTechnical(skill) == x
  {
    var normal := Map(Filter(SkillDictionary.QuickSkills, MatchesIn(matches, text)), NormalizeTechnical);
    UniqueSpec(normal);
    FilterMapMembers(SkillDictionary.QuickSkills, MatchesIn(matches, text), NormalizeTechnical, x);
  }

  // ---- merge ----

  /** Both feeds in order, then the URL dedup (the first job with a URL is kept). */
  function Merge(jobIndexJobs: seq<Job>, itJobBankJobs: seq<Job>): seq<Job> {
    UniqueBy(jobIndexJobs + itJobBankJobs, Url)
  }

  /**
   * No two merged jobs share a URL, every URL of either feed survives, each kept job
   * is the first of the feeds with its URL, and the order is kept.
   */
  lemma MergeShape(a: seq<Job>, b: seq<Job>)
    ensures forall i, j :: 0 <= i < j < |Merge(a, b)| ==> Merge(a, b)[i].url != Merge(a, b)[j].url
    ensures forall i :: 0 <= i < |a + b| ==> KeyOccurs(Merge(a, b), Url, (a + b)[i].url)
    ensures forall j :: 0 <= j < |Merge(a, b)| ==>
      exists i :: 0 <= i < |a + b| && (a + b)[i] == Merge(a, b)[j] && !KeyOccurs((a + b)[..i], Url, (a + b)[i].url)
    ensures IsSubseq(Merge(a, b), a + b)
  {
    var ab, m := a + b, Merge(a, b);
    UniqueByDistinct(ab, Url);
    UniqueByCovers(ab, Url);
    UniqueByIsSubseq(ab, Url);
    forall j | 0 <= j < |m|
      ensures exists i :: 0 <= i < |ab| && ab[i] == m[j] && !KeyOccurs(ab[..i], Url, ab[i].url)
    {
      UniqueByKeepsFirst(ab, Url, j);
      var i :| 0 <= i < |ab| && ab[i] == m[j] && !KeyOccurs(ab[..i], Url, Url(ab[i]));
      assert Url(ab[i]) == ab[i].url;
    }
  }

  /** A feed whose URLs are already distinct comes through the merge unchanged. */
  lemma MergeOneFeed(a: seq<Job>)
    requires forall i, j :: 0 <= i < j < |a| ==> a[i].url != a[j].url
    ensures Merge(a, []) == a
  {
    assert a + [] == a;
    UniqueByOfDistinct(a, Url);
  }

  // ---- the Copenhagen filter ----

  const CopenhagenAliases: seq<String> := ["københavn", "kobenhavn", "kbh", "storkøbenhavn", "copenhagen"]

  const CopenhagenAreas: seq<String> := [
    "københavn", "copenhagen", "kbh", "storkøbenhavn",
    "frederiksberg", "gentofte", "gladsaxe", "herlev", "rødovre",
    "glostrup", "brøndby", "hvidovre", "vallensbæk", "ishøj",
    "tårnby", "dragør", "albertslund", "ballerup", "høje-taastrup",
    "lyngby", "rudersdal", "furesø", "helsingør", "fredensborg",
    "hillerød", "hørsholm", "allerød", "egedal", "frederikssund",
    "solrød", "greve", "køge", "roskilde", "lejre"
  ]

  const ExcludedAreas: seq<String> := [
    "aarhus", "aalborg", "odense", "esbjerg", "randers", "kolding",
    "horsens", "vejle", "silkeborg", "herning", "fredericia", "viborg",
    "hjørring", "holstebro", "thisted", "svendborg", "næstved",
    "frederikshavn", "middelfart", "sønderborg", "jylland", "fyn"
  ]

  /** The filter runs when a location other than "danmark" is given and it is a Copenhagen alias. */
  predicate CopenhagenMode(location: Option<String>) {
    !NoLocationFilter(location) && ToLower(location.value) in CopenhagenAliases
  }

  /** The lowercased title, description and location the areas are looked up in. */
  function FullText(job: Job): String {
    ToLower(job.title + " " + job.description + " " + job.location)
  }

  /** `areas.some(area => text.includes(area))` */
  predicate MentionsAny(text: String, areas: seq<String>) {
    exists k :: 0 <= k < |areas| && Contains(text, areas[k])
  }

  /** An excluded area rules a job out; otherwise it needs a Copenhagen area. */
  predicate InCopenhagen(job: Job) {
    !MentionsAny(FullText(job), ExcludedAreas) && MentionsAny(FullText(job), CopenhagenAreas)
  }

  function InCopenhagenFilter(): Job -> bool {
    job => InCopenhagen(job)
  }

  function LocationFiltered(jobs: seq<Job>, location: Option<String>): seq<Job> {
    if CopenhagenMode(location) then Filter(jobs, InCopenhagenFilter()) else jobs
  }

  /**
   * Outside Copenhagen mode every job is kept. In it, a job is kept exactly when it
   * names no excluded area and some Copenhagen area, and the order is kept.
   */
  lemma LocationFilterMembers(jobs: seq<Job>, location: Option<String>, job: Job)
    ensures !CopenhagenMode(location) ==> LocationFiltered(jobs, location) == jobs
    ensures CopenhagenMode(location) ==>
      (job in LocationFiltered(jobs, location) <==>
        job in jobs && !MentionsAny(FullText(job), ExcludedAreas) && MentionsAny(FullText(job), CopenhagenAreas))
    ensures IsSubseq(LocationFiltered(jobs, location), jobs)
  {
    FilterMembers(jobs, InCopenhagenFilter(), job);
    FilterIsSubseq(jobs, InCopenhagenFilter());
    if !CopenhagenMode(location) {
      SubseqRefl(jobs);
    }
  }

  /** Exclusion wins: a job naming Aarhus is dropped even when it also names a Copenhagen area. */
  lemma ExclusionWins(jobs: seq<Job>, location: Option<String>, job: Job)
    requires CopenhagenMode(location)
    requires Contains(FullText(job), "aarhus") && Contains(FullText(job), "københavn")
    ensures job !in LocationFiltered(jobs, location)
  {
    assert ExcludedAreas[0] == "aarhus";
    FilterMembers(jobs, InCopenhagenFilter(), job);
  }

  /** Aliases are recognised in any case; other places leave the list alone. */
  lemma CopenhagenModeExamples()
    ensures CopenhagenMode(Some("KBH"))
    ensures CopenhagenMode(Some("Copenhagen"))
    ensures !CopenhagenMode(Some("Danmark"))
    ensures !CopenhagenMode(Some("Aarhus"))
    ensures !CopenhagenMode(None)
  {
    assert ToLower("KBH") == "kbh";
    assert ToLower("Copenhagen") == "copenhagen";
    assert ToLower("Danmark") == "danmark";
    assert ToLower("Aarhus") == "aarhus";
    assert CopenhagenAliases[2] == "kbh";
    assert CopenhagenAliases[4] == "copenhagen";
  }

  // ---- the demonstration fallback ----

  const MockUrl: String := "https://www.jobindex.dk"

  const MockDescription1: String :=
    "Vi søger en dygtig " + "software udvikler med " + "erfaring i .NET og C#. " +
    "Du kommer til at arbejde " + "med moderne " + "cloud-baserede løsninger " + "i Azure, og du får " +
    "mulighed for at arbejde " + "med spændende projekter " + "i et agilt team. Vi " +
    "forventer erfaring med " + "C#, .NET Core, Azure, " + "SQL, og gerne " + "TypeScript. Vi tilbyder " +
    "en spændende " + "arbejdsplads med gode " + "udviklingsmuligheder."

  const MockDescription2: String :=
    "Er du skarp til React og " + "TypeScript? Vi søger en " + "frontend developer til " +
    "vores voksende team. Du " + "kommer til at arbejde " + "med moderne " + "webudvikling, responsive " +
    "design, og brugervenlige " + "interfaces. Erfaring med " + "React, TypeScript, HTML, " +
    "CSS, og gerne Next.js er " + "et must. Vi tilbyder " + "flexibilitet, gode " + "kolleger, og spændende " +
    "projekter."

  const MockDescription3: String :=
    "Vi mangler en full stack " + "udvikler der kan arbejde " + "med både frontend og " +
    "backend. Du skal have " + "erfaring med JavaScript, " + "Node.js, React, og " + "databaser som MongoDB " +
    "eller SQL. Vi arbejder " + "agilt med SCRUM, og du " + "får mulighed for at " +
    "påvirke teknologivalg og " + "arkitektur. Godt " + "arbejdsmiljø og " + "udviklingsmuligheder."

  const MockDescription4: String :=
    "Søger erfaren DevOps " + "engineer til at arbejde " + "med cloud " + "infrastructure, CI/CD " +
    "pipelines, og " + "containerization. Du " + "skal have erfaring med " + "Docker, Kubernetes, " +
    "Azure DevOps, Terraform, " + "og Infrastructure as " + "Code. Vi tilbyder et " + "teknisk udfordrende " +
    "miljø hvor du kan " + "arbejde med cutting-edge " + "teknologier."

  const MockDescription5: String :=
    "Ny-uddannet eller junior " + "udvikler søges til vores " + "udviklingsteam. Du får " +
    "mulighed for at lære fra " + "erfarne udviklere og " + "arbejde med C#, .NET, " +
    "Azure, og SQL. Vi lægger " + "vægt på læring og " + "udvikling, og du får god " +
    "onboarding og mentoring. " + "Perfekt for dig der lige " + "er færdiguddannet som " +
    "IT-Teknolog eller " + "Datamatiker."

  /** One demonstration job, posted `days` days before now. */
  function MockJob(n: nat, title: String, company: String, location: String, description: String,
                   days: nat, salary: Option<String>, daysAgo: nat -> String): Job {
    Job("mock-" + NatToString(n), title, company, location, description, MockUrl, daysAgo(days), salary,
        "Fastansættelse", None, None, None)
  }

  /** generateMockJobs: five jobs, all with the same URL. `daysAgo(d)` is the ISO time `d` days back. */
  function MockJobs(daysAgo: nat -> String): (r: seq<Job>)
    ensures |r| == 5
    ensures forall k :: 0 <= k < |r| ==> r[k].url == MockUrl
  {
    [MockJob(1, "Software Udvikler - .NET/C#", "TechDanmark A/S", "København", MockDescription1,
             2, Some("45000 - 55000 DKK"), daysAgo),
     MockJob(2, "Frontend Developer - React & TypeScript", "Digital Solutions ApS", "Aarhus", MockDescription2,
             5, Some("42000 - 52000 DKK"), daysAgo),
     MockJob(3, "Full Stack Udvikler - JavaScript/Node.js", "Innovation Labs", "Odense", MockDescription3,
             1, None, daysAgo),
     MockJob(4, "DevOps Engineer - Kubernetes & Azure", "CloudOps Denmark", "København", MockDescription4,
             7, Some("50000 - 65000 DKK"), daysAgo),
     MockJob(5, "Junior Softwareudvikler - C# .NET", "StartUp Solutions", "Aalborg", MockDescription5,
             3, Some("38000 - 45000 DKK"), daysAgo)]
  }

  /** The filtered jobs, or the demonstration jobs when none are left. */
  function Chosen(filtered: seq<Job>, daysAgo: nat -> String): seq<Job> {
    if filtered == [] then MockJobs(daysAgo) else filtered
  }

  /** The demonstration jobs share one URL yet are not deduplicated: the URL dedup would keep one. */
  lemma MockJobsNotDeduplicated(daysAgo: nat -> String)
    ensures |Chosen([], daysAgo)| == 5
    ensures |UniqueBy(MockJobs(daysAgo), Url)| == 1
  {
    var m := MockJobs(daysAgo);
    forall k | 0 <= k <= |m| ensures |UniqueBy(m[..k], Url)| == if k == 0 then 0 else 1 {
      UniqueByOneKey(m, k);
    }
    assert m[..5] == m;
  }

  lemma {:induction false} UniqueByOneKey(m: seq<Job>, k: nat)
    requires k <= |m|
    requires forall i :: 0 <= i < |m| ==> m[i].url == MockUrl
    ensures |UniqueBy(m[..k], Url)| == if k == 0 then 0 else 1
  {
    if k > 0 {
      var init, x := m[..k - 1], m[k - 1];
      UniqueByOneKey(m, k - 1);
      assert m[..k] == init + [x];
      UniqueBySnoc(init, x, Url);
      if k > 1 {
        assert Url(init[0]) == Url(x);
        assert KeyOccurs(init, Url, Url(x));
        assert UniqueBy(m[..k], Url) == UniqueBy(init, Url);
      } else {
        assert init == [];
        assert !KeyOccurs(init, Url, Url(x));
        assert UniqueBy(m[..k], Url) == UniqueBy(init, Url) + [x];
      }
    }
  }

  // ---- scoring and ranking ----

  /** `{ ...job, matchScore }` with the quick keywords of title and description. */
  function Scored(job: Job, matches: WordTest, skills: Skills): Job {
    job.(matchScore := Some(MatchScore(QuickKeywords(job.title + " " + job.description, matches), skills)))
  }

  function ScoredBy(matches: WordTest, skills: Skills): Job -> Job {
    job => Scored(job, matches, skills)
  }

  /** Score every job, then the stable descending sort by `matchScore || 0`. */
  function Ranked(jobs: seq<Job>, matches: WordTest, skills: Skills): seq<Job> {
    SortDesc(Map(jobs, ScoredBy(matches, skills)), ScoreOrZero)
  }

  /**
   * The ranking orders by score, highest first, keeps every scored job exactly once,
   * keeps the order of equal scores, and every job carries a score in 0..100.
   */
  lemma RankedShape(jobs: seq<Job>, matches: WordTest, skills: Skills, v: int)
    ensures SortedDesc(Ranked(jobs, matches, skills), ScoreOrZero)
    ensures multiset(Ranked(jobs, matches, skills)) == multiset(Map(jobs, ScoredBy(matches, skills)))
    ensures Filter(Ranked(jobs, matches, skills), KeyIs(ScoreOrZero, v))
         == Filter(Map(jobs, ScoredBy(matches, skills)), KeyIs(ScoreOrZero, v))
    ensures forall k :: 0 <= k < |Ranked(jobs, matches, skills)| ==>
      Ranked(jobs, matches, skills)[k].matchScore.Some? && 0 <= Ranked(jobs, matches, skills)[k].matchScore.value <= 100
  {
    var scored := Map(jobs, ScoredBy(matches, skills));
    SortDescSpec(scored, ScoreOrZero);
    SortDescStable(scored, ScoreOrZero, v);
    var r := Ranked(jobs, matches, skills);
    forall k | 0 <= k < |r| ensures r[k].matchScore.Some? && 0 <= r[k].matchScore.value <= 100 {
      assert r[k] in multiset(scored);
      var i :| 0 <= i < |scored| && scored[i] == r[k];
    }
  }

  /** Scoring changes nothing but the score. */
  lemma ScoredKeepsRecord(job: Job, matches: WordTest, skills: Skills)
    ensures Scored(job, matches, skills).(matchScore := job.matchScore) == job
  {
  }

  // ---- the handler ----

  datatype SearchRequest = SearchRequest(keywords: Option<String>, location: Option<String>)

  datatype Environment = Environment(
    fetch: (Source, seq<(String, String)>) -> Option<seq<String>>,
    fields: FieldLookup,
    isoDate: IsoDate,
    locate: LocationFind,
    now: String,
    daysAgo: nat -> String,
    matches: WordTest,
    resume: Option<Skills>)

  datatype Response =
    | Listing(jobs: seq<Job>, totalCount: nat, page: nat)
    | Failure(status: nat, error: String)

  const KeywordsRequired: String := "Søgeord er påkrævet"
  const FetchFailed: String := "Kunne ikke hente jobs"

  /** One reader: its feed downloaded with its search parameters and parsed, `[]` when the download throws. */
  function SourceJobs(source: Source, keywords: String, location: Option<String>, env: Environment): seq<Job> {
    match env.fetch(source, SearchParams(source, keywords, location))
    case None => []
    case Some(items) => ParseFeed(source, items, env.fields, env.isoDate, env.locate, env.now)
  }

  /** The jobs before scoring: merged, location-filtered, with the demonstration fallback. */
  function Candidates(keywords: String, location: Option<String>, env: Environment): seq<Job> {
    var merged := Merge(SourceJobs(JobIndex, keywords, location, env), SourceJobs(ITJobBank, keywords, location, env));
    Chosen(LocationFiltered(merged, location), env.daysAgo)
  }

  /**
   * POST: a body that does not parse or a resume that cannot be read gives 500,
   * missing or empty keywords give 400, and otherwise the ranked jobs on page 1.
   */
  function FetchJobs(body: Option<SearchRequest>, env: Environment): Response {
    match body
    case None => Failure(500, FetchFailed)
    case Some(req) =>
      if req.keywords.None? || req.keywords.value == [] then Failure(400, KeywordsRequired)
      else
        var candidates := Candidates(req.keywords.value, req.location, env);
        match env.resume
        case None => Failure(500, FetchFailed)
        case Some(skills) =>
          var ranked := Ranked(candidates, env.matches, skills);
          Listing(ranked, |ranked|, 1)
  }

  /** The error cases, both ways: a listing comes back exactly when body, keywords and resume are all there. */
  lemma FetchJobsOutcome(body: Option<SearchRequest>, env: Environment)
    ensures FetchJobs(body, env).Listing? <==>
      body.Some? && body.value.keywords.Some? && body.value.keywords.value != [] && env.resume.Some?
    ensures body.Some? && (body.value.keywords.None? || body.value.keywords.value == []) ==>
      FetchJobs(body, env) == Failure(400, KeywordsRequired)
    ensures FetchJobs(body, env).Failure? ==> FetchJobs(body, env).status in {400, 500}
  {
  }

  /**
   * A listing is the ranking of the candidates: never empty (the fallback guarantees
   * five jobs at least), counted exactly, on page 1.
   */
  lemma FetchJobsListing(req: SearchRequest, env: Environment)
    requires req.keywords.Some? && req.keywords.value != [] && env.resume.Some?
    ensures var r := FetchJobs(Some(req), env);
      r.Listing? && r.totalCount == |r.jobs| && r.page == 1 && r.jobs != []
      && r.jobs == Ranked(Candidates(req.keywords.value, req.location, env), env.matches, env.resume.value)
  {
    var c := Candidates(req.keywords.value, req.location, env);
    ChosenNonEmpty(LocationFiltered(Merge(SourceJobs(JobIndex, req.keywords.value, req.location, env),
      SourceJobs(ITJobBank, req.keywords.value, req.location, env)), req.location), env.daysAgo);
    RankedLength(c, env.matches, env.resume.value);
  }

  /** The fallback means there is always something to rank. */
  lemma ChosenNonEmpty(filtered: seq<Job>, daysAgo: nat -> String)
    ensures Chosen(filtered, daysAgo) != []
  {
    if filtered == [] {
      assert |MockJobs(daysAgo)| == 5;
    }
  }

  /** The ranking scores every job and drops none. */
  lemma RankedLength(jobs: seq<Job>, matches: WordTest, skills: Skills)
    ensures |Ranked(jobs, matches, skills)| == |jobs|
  {
    SortDescSpec(Map(jobs, ScoredBy(matches, skills)), ScoreOrZero);
  }

  /** With nothing left after the filter, the five demonstration jobs are ranked instead. */
  lemma FallbackWhenEmpty(keywords: String, location: Option<String>, env: Environment)
    requires LocationFiltered(Merge(SourceJobs(JobIndex, keywords, location, env),
                                    SourceJobs(ITJobBank, keywords, location, env)), location) == []
    ensures Candidates(keywords, location, env) == MockJobs(env.daysAgo)
  {
  }
}
