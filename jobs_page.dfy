/**
 * The job search page: the search handler with its blank-keyword guard, the
 * "analyse all" handler that scores every listed job and sorts the list by score,
 * and the three display helpers (how long ago a job was posted, and the colour
 * and badge of a match score).
 *
 * `JobsPageState` holds the page's state fields. The listing request and the analysis
 * request are function parameters; the clock is the millisecond values given to
 * `DiffDays`.
 */
module JobsPage {
  import opened Wrappers
  import opened Strings
  import opened Seqs
  import opened JobRecords

  const DefaultLocation: String := "københavn"
  const NoKeywords: String := "Indtast søgeord"
  const FetchFailed: String := "Kunne ikke hente jobs"

  // ---- how long ago ----

  const MillisPerDay: nat := 1000 * 60 * 60 * 24

  /** `Math.floor((now - date) / (1000 * 60 * 60 * 24))`: whole days, rounded down. */
  function DiffDays(nowMs: int, dateMs: int): (d: int)
    ensures d * MillisPerDay <= nowMs - dateMs < (d + 1) * MillisPerDay
  {
    (nowMs - dateMs) / MillisPerDay
  }

  const Today: String := "I dag"
  const Yesterday: String := "I går"
  const DaysAgo: String := " dage siden"
  const WeeksAgo: String := " uger siden"
  const MonthsAgo: String := " måneder siden"

  /** `formatDate`, given the day difference. */
  function FormatDays(d: int): (r: String)
    ensures r == Today <==> d == 0
    ensures r == Yesterday <==> d == 1
    ensures d < 7 && d != 0 && d != 1 ==> r == IntToString(d) + DaysAgo
    ensures 7 <= d < 30 ==> r == NatToString(d / 7) + WeeksAgo
    ensures d >= 30 ==> r == NatToString(d / 30) + MonthsAgo
  {
    if d == 0 then Today
    else if d == 1 then Yesterday
    else if d < 7 then IntToString(d) + DaysAgo
    else if d < 30 then NatToString(d / 7) + WeeksAgo
    else NatToString(d / 30) + MonthsAgo
  }

  /**
   * The number a week or month label shows: 1 to 4 weeks between 7 and 29 days,
   * and a rounded-down month of 30 days from then on.
   */
  lemma FormatDaysCounts(d: int)
    ensures 7 <= d < 30 ==> exists n: nat :: 1 <= n <= 4 && 7 * n <= d < 7 * n + 7 && FormatDays(d) == NatToString(n) + WeeksAgo
    ensures d >= 30 ==> exists n: nat :: n >= 1 && 30 * n <= d < 30 * n + 30 && FormatDays(d) == NatToString(n) + MonthsAgo
  {
    if 7 <= d < 30 {
      var n: nat := d / 7;
      assert d == 7 * n + d % 7 && 0 <= d % 7 < 7;
      assert 1 <= n <= 4 && 7 * n <= d < 7 * n + 7 && FormatDays(d) == NatToString(n) + WeeksAgo;
    } else if d >= 30 {
      var n: nat := d / 30;
      assert d == 30 * n + d % 30 && 0 <= d % 30 < 30;
      assert n >= 1 && 30 * n <= d < 30 * n + 30 && FormatDays(d) == NatToString(n) + MonthsAgo;
    }
  }

  /** A date in the future (negative difference) still reads as "days ago", with a minus sign. */
  lemma FutureDatesReadAsDays(nowMs: int, dateMs: int)
    requires dateMs > nowMs
    ensures FormatDays(DiffDays(nowMs, dateMs)) == ['-'] + NatToString(-DiffDays(nowMs, dateMs)) + DaysAgo
  {
    assert DiffDays(nowMs, dateMs) < 0;
  }

  // ---- score colour and badge ----

  const MatchGray: String := "text-gray-500"
  const MatchGreen: String := "text-green-600 dark:text-green-400"
  const MatchYellow: String := "text-yellow-600 dark:text-yellow-400"
  const MatchRed: String := "text-red-600 dark:text-red-400"

  const BadgeGreen: String := "bg-green-100 dark:bg-green-900 text-green-800 dark:text-green-100"
  const BadgeYellow: String := "bg-yellow-100 dark:bg-yellow-900 text-yellow-800 dark:text-yellow-100"
  const BadgeRed: String := "bg-red-100 dark:bg-red-900 text-red-800 dark:text-red-100"

  /** `!score`: a missing score and a score of 0 are both falsy. */
  predicate Unscored(score: Option<int>) {
    score.None? || score.value == 0
  }

  /** `getMatchColor` */
  function MatchColor(score: Option<int>): (r: String)
    ensures r == MatchGray <==> Unscored(score)
    ensures r == MatchGreen <==> !Unscored(score) && score.value >= 80
    ensures r == MatchYellow <==> !Unscored(score) && 50 <= score.value < 80
    ensures r == MatchRed <==> !Unscored(score) && score.value < 50
  {
    if Unscored(score) then MatchGray
    else if score.value >= 80 then MatchGreen
    else if score.value >= 50 then MatchYellow
    else MatchRed
  }

  /** `getMatchBadge`: `null` is `None`. */
  function MatchBadge(score: Option<int>): (r: Option<String>)
    ensures r.None? <==> Unscored(score)
    ensures r == Some(BadgeGreen) <==> !Unscored(score) && score.value >= 80
    ensures r == Some(BadgeYellow) <==> !Unscored(score) && 50 <= score.value < 80
    ensures r == Some(BadgeRed) <==> !Unscored(score) && score.value < 50
  {
    if Unscored(score) then None
    else if score.value >= 80 then Some(BadgeGreen)
    else if score.value >= 50 then Some(BadgeYellow)
    else Some(BadgeRed)
  }

  /** The badge and the text colour always tell the same band. */
  lemma BadgeMatchesColor(score: Option<int>)
    ensures MatchBadge(score).None? <==> MatchColor(score) == MatchGray
    ensures MatchBadge(score) == Some(BadgeGreen) <==> MatchColor(score) == MatchGreen
    ensures MatchBadge(score) == Some(BadgeYellow) <==> MatchColor(score) == MatchYellow
    ensures MatchBadge(score) == Some(BadgeRed) <==> MatchColor(score) == MatchRed
  {
  }

  // ---- analysing every listed job ----

  /**
   * One analysis request: the parsed answer, whose `matchScore` may be absent
   * (an error answer has none), or a throw (network failure, unreadable body).
   */
  datatype AnalysisReply = Answered(matchScore: Option<int>) | Threw

  /** `{ ...job, matchScore: analysis.matchScore }`, and `matchScore: 0` when the request throws. */
  function WithScore(analyze: String -> AnalysisReply): Job -> Job {
    (job: Job) =>
      match analyze(job.description)
      case Answered(s) => job.(matchScore := s)
      case Threw => job.(matchScore := Some(0))
  }

  /** The list after `analyzeAllJobs`: every job scored, then stably sorted by `matchScore || 0`, highest first. */
  function AnalyzedJobs(jobs: seq<Job>, analyze: String -> AnalysisReply): seq<Job> {
    SortDesc(Map(jobs, WithScore(analyze)), ScoreOrZero)
  }

  /**
   * `job` is one of `jobs` with only its score replaced: by the answer's score,
   * or by 0 when the request threw.
   */
  predicate ScoredFrom(job: Job, jobs: seq<Job>, analyze: String -> AnalysisReply) {
    exists i :: 0 <= i < |jobs| && job == jobs[i].(matchScore := job.matchScore)
      && (analyze(jobs[i].description).Threw? ==> job.matchScore == Some(0))
      && (analyze(jobs[i].description).Answered? ==> job.matchScore == analyze(jobs[i].description).matchScore)
  }

  /**
   * As many jobs as before, ordered by score, and each one of the old jobs with
   * only its score replaced: the answer's score, or 0 when the request threw.
   */
  lemma AnalyzedJobsShape(jobs: seq<Job>, analyze: String -> AnalysisReply)
    ensures var r := AnalyzedJobs(jobs, analyze);
      |r| == |jobs| && SortedDesc(r, ScoreOrZero)
      && multiset(r) == multiset(Map(jobs, WithScore(analyze)))
      && forall k :: 0 <= k < |r| ==> ScoredFrom(r[k], jobs, analyze)
  {
    var scored := Map(jobs, WithScore(analyze));
    var r := AnalyzedJobs(jobs, analyze);
    SortDescSpec(scored, ScoreOrZero);
    forall k | 0 <= k < |r|
      ensures ScoredFrom(r[k], jobs, analyze)
    {
      assert r[k] in multiset(scored);
      var i :| 0 <= i < |scored| && scored[i] == r[k];
      assert scored[i] == WithScore(analyze)(jobs[i]);
    }
  }

  /** Jobs with equal scores keep the order they had in the list. */
  lemma AnalyzedJobsStable(jobs: seq<Job>, analyze: String -> AnalysisReply, v: int)
    ensures Filter(AnalyzedJobs(jobs, analyze), KeyIs(ScoreOrZero, v))
         == Filter(Map(jobs, WithScore(analyze)), KeyIs(ScoreOrZero, v))
  {
    SortDescStable(Map(jobs, WithScore(analyze)), ScoreOrZero, v);
  }

  /** When every request throws, every job scores 0 and the list keeps its order. */
  lemma AllFailedKeepsOrder(jobs: seq<Job>, analyze: String -> AnalysisReply)
    requires forall i :: 0 <= i < |jobs| ==> analyze(jobs[i].description).Threw?
    ensures AnalyzedJobs(jobs, analyze) == Map(jobs, (job: Job) => job.(matchScore := Some(0)))
  {
    var scored := Map(jobs, WithScore(analyze));
    assert scored == Map(jobs, (job: Job) => job.(matchScore := Some(0)));
    assert SortedDesc(scored, ScoreOrZero);
    SortDescOfSorted(scored, ScoreOrZero);
  }

  // ---- the page state ----

  /** One listing request: an ok answer, an answer that is not ok with its `error` field, or a throw. */
  datatype SearchReply =
    | Listing(jobs: seq<Job>, totalCount: int)
    | Refused(error: Option<String>)
    | Unreachable(message: String)

  /** `data.error || 'Kunne ikke hente jobs'`: an absent or empty error falls back to the default. */
  function RefusalMessage(error: Option<String>): (r: String)
    ensures error.Some? && error.value != [] ==> r == error.value
    ensures error.None? || error.value == [] ==> r == FetchFailed
  {
    if error.Some? && error.value != [] then error.value else FetchFailed
  }

  /** `!keywords.trim()`, the guard of `searchJobs`. */
  method BlankQuery(keywords: String) returns (blank: bool)
    ensures blank <==> AllSpace(keywords)
  {
    BlankIffAllSpace(keywords);
    blank := Trim(keywords) == [];
  }

  class JobsPageState {
    var keywords: String
    var location: String
    var jobs: seq<Job>
    var loading: bool
    var error: String
    var totalCount: int
    var analyzing: bool

    constructor()
      ensures keywords == [] && location == DefaultLocation && jobs == []
      ensures !loading && error == [] && totalCount == 0 && !analyzing
    {
      keywords := [];
      location := DefaultLocation;
      jobs := [];
      loading := false;
      error := [];
      totalCount := 0;
      analyzing := false;
    }

    /**
     * `searchJobs`. Blank keywords only set the error: the list, the count and the
     * loading flag are left as they were and no request is made. Otherwise the
     * list is cleared and replaced by the answer, or the error is set.
     */
    method SearchJobs(fetch: (String, String) -> SearchReply)
      modifies this
      ensures keywords == old(keywords) && location == old(location) && analyzing == old(analyzing)
      ensures AllSpace(old(keywords)) ==>
        error == NoKeywords && jobs == old(jobs) && totalCount == old(totalCount) && loading == old(loading)
      ensures !AllSpace(old(keywords)) ==> !loading && match fetch(old(keywords), old(location))
        case Listing(found, count) => jobs == found && totalCount == count && error == []
        case Refused(e) => jobs == [] && totalCount == old(totalCount) && error == RefusalMessage(e)
        case Unreachable(m) => jobs == [] && totalCount == old(totalCount) && error == m
    {
      var blank := BlankQuery(keywords);
      if blank {
        error := NoKeywords;
        return;
      }
      var reply := fetch(keywords, location);
      match reply {
        case Listing(found, count) =>
          jobs, totalCount, error, loading := found, count, [], false;
        case Refused(e) =>
          jobs, error, loading := [], RefusalMessage(e), false;
        case Unreachable(m) =>
          jobs, error, loading := [], m, false;
      }
    }

    /** `analyzeAllJobs`: score each listed job in list order, then sort the scored list. */
    method AnalyzeAllJobs(analyze: String -> AnalysisReply)
      modifies this
      ensures jobs == AnalyzedJobs(old(jobs), analyze) && !analyzing
      ensures keywords == old(keywords) && location == old(location) && loading == old(loading)
      ensures error == old(error) && totalCount == old(totalCount)
    {
      analyzing := true;
      var listed := jobs;
      var analyzed: seq<Job> := [];
      var i := 0;
      while i < |listed|
        invariant 0 <= i <= |listed|
        invariant analyzed == Map(listed[..i], WithScore(analyze))
        modifies {}
      {
        var job := listed[i];
        var scored: Job;
        match analyze(job.description) {
          case Answered(s) => scored := job.(matchScore := s);
          case Threw => scored := job.(matchScore := Some(0));
        }
        assert listed[..i + 1] == listed[..i] + [job];
        MapConcat(listed[..i], [job], WithScore(analyze));
        analyzed := analyzed + [scored];
        i := i + 1;
      }
      assert listed[..i] == listed;
      jobs := SortDesc(analyzed, ScoreOrZero);
      analyzing := false;
    }
  }
}
