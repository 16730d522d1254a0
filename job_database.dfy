/**
 * The auto-check route: the stored job database, the listing request issued for
 * each saved search keyword, and the ingest step that keeps only jobs whose URL
 * is not stored yet, deduplicates them by URL across the keyword batches, marks
 * the ones at or above the match threshold as notified, appends them and keeps
 * the last 500.
 *
 * `Database` is the database file: a run that throws saves nothing, so the file
 * keeps its old state. The listing request is a `fetch` parameter and the clock
 * is the `now` parameter.
 */
module JobDatabase {
  import opened Wrappers
  import opened Strings
  import opened Seqs
  import opened JobRecords

  const MaxStored: nat := 500
  const DefaultSearchKeywords: seq<String> := ["c#", "python", "javascript", "typescript", "react", "sql"]
  const DefaultEmail: String := "your-email@example.com"
  const DefaultThreshold: int := 80
  /** Every auto-check search asks for this location. */
  const SearchLocation: String := "københavn"
  const CheckFailed: String := "Failed to auto-check jobs"

  /**
   * One listing request: the jobs of an ok response (`data.jobs || []`), a
   * response that is not ok, or a throw (network failure, unreadable body).
   */
  datatype Reply = Ok(jobs: seq<Job>) | NotOk | Threw

  /** The JSON the route answers with. */
  datatype CheckResult =
    | Checked(newJobs: nat, highMatchJobs: nat, totalJobsInDatabase: nat, lastChecked: String)
    | CheckError(status: nat, error: String)

  /** The one e-mail of a run: the address and the high-match jobs it lists. */
  datatype Notification = Notification(email: String, jobs: seq<Job>)

  // ---- the pieces of the ingest step ----

  /** `jobs.some(job => job.url === url)` */
  function SomeHasUrl(jobs: seq<Job>, url: String): (r: bool)
    ensures r <==> KeyOccurs(jobs, Url, url)
  {
    if jobs == [] then false
    else if jobs[0].url == url then true
    else
      var rest := SomeHasUrl(jobs[1..], url);
      assert rest ==> KeyOccurs(jobs, Url, url) by {
        if rest {
          var i :| 0 <= i < |jobs[1..]| && Url(jobs[1..][i]) == url;
          assert Url(jobs[i + 1]) == url;
        }
      }
      assert KeyOccurs(jobs, Url, url) ==> rest by {
        if KeyOccurs(jobs, Url, url) {
          var i :| 0 <= i < |jobs| && Url(jobs[i]) == url;
          assert Url(jobs[1..][i - 1]) == url;
        }
      }
      rest
  }

  /** `job => !jobExists(db, job.url)` against the jobs stored before the run. */
  function IsUnknown(known: seq<Job>): Job -> bool {
    (job: Job) => !SomeHasUrl(known, job.url)
  }

  /** `job.foundAt = now; job.notified = false` */
  function Stamped(now: String): Job -> Job {
    (job: Job) => job.(foundAt := Some(now), notified := Some(false))
  }

  /** The new jobs of one ok response, stamped. */
  function NewInBatch(known: seq<Job>, batch: seq<Job>, now: String): seq<Job> {
    Map(Filter(batch, IsUnknown(known)), Stamped(now))
  }

  /**
   * `allNewJobs` after the requests for `keywords`, in order; `None` once a
   * request throws.
   */
  function Gathered(known: seq<Job>, keywords: seq<String>, fetch: (String, String) -> Reply, now: String)
    : Option<seq<Job>>
    decreases |keywords|
  {
    if keywords == [] then Some([])
    else
      match Gathered(known, keywords[..|keywords| - 1], fetch, now)
      case None => None
      case Some(all) =>
        match fetch(keywords[|keywords| - 1], SearchLocation)
        case Threw => None
        case NotOk => Some(all)
        case Ok(batch) => Some(all + NewInBatch(known, batch, now))
  }

  /** `job => (job.matchScore || 0) >= threshold` */
  function AtThreshold(threshold: int): Job -> bool {
    (job: Job) => ScoreOrZero(job) >= threshold
  }

  function MarkIfHigh(threshold: int): Job -> Job {
    (job: Job) => if ScoreOrZero(job) >= threshold then job.(notified := Some(true)) else job
  }

  /** The unique new jobs after the high-match ones are marked notified (only when there are some). */
  function Marked(unique: seq<Job>, threshold: int): seq<Job> {
    if |Filter(unique, AtThreshold(threshold))| > 0 then Map(unique, MarkIfHigh(threshold)) else unique
  }

  /** `if (s.length > n) s = s.slice(-n)` */
  function KeepLast(s: seq<Job>, n: nat): seq<Job> {
    if |s| > n then s[|s| - n..] else s
  }

  // ---- the database ----

  class Database {
    var jobs: seq<Job>
    var lastChecked: Option<String>
    var searchKeywords: seq<String>
    var notificationEmail: String
    var matchThreshold: int

    /** The record `loadDatabase` falls back to when the file cannot be read or parsed. */
    constructor Default()
      ensures jobs == [] && lastChecked == None
      ensures searchKeywords == DefaultSearchKeywords
      ensures notificationEmail == DefaultEmail && matchThreshold == DefaultThreshold
    {
      jobs := [];
      lastChecked := None;
      searchKeywords := DefaultSearchKeywords;
      notificationEmail := DefaultEmail;
      matchThreshold := DefaultThreshold;
    }

    /** A database read from its file. */
    constructor Loaded(jobs: seq<Job>, lastChecked: Option<String>, searchKeywords: seq<String>,
                       notificationEmail: String, matchThreshold: int)
      ensures this.jobs == jobs && this.lastChecked == lastChecked
      ensures this.searchKeywords == searchKeywords
      ensures this.notificationEmail == notificationEmail && this.matchThreshold == matchThreshold
    {
      this.jobs := jobs;
      this.lastChecked := lastChecked;
      this.searchKeywords := searchKeywords;
      this.notificationEmail := notificationEmail;
      this.matchThreshold := matchThreshold;
    }

    /** `jobExists`: some stored job has exactly this URL. */
    function JobExists(url: String): (r: bool)
      reads this
      ensures r <==> exists k :: 0 <= k < |jobs| && jobs[k].url == url
    {
      SomeHasUrl(jobs, url)
    }

    /**
     * GET: one request per search keyword, then the ingest. A throwing request
     * answers 500 and leaves the database as it was; otherwise the unique new jobs
     * are marked, appended and trimmed to the last 500, `lastChecked` is `now`, and
     * the notifier is called with the high-match jobs exactly when there are some.
     */
    method AutoCheck(fetch: (String, String) -> Reply, now: String) returns (result: CheckResult, sent: Option<Notification>)
      modifies this
      ensures searchKeywords == old(searchKeywords) && notificationEmail == old(notificationEmail)
      ensures matchThreshold == old(matchThreshold)
      ensures Gathered(old(jobs), searchKeywords, fetch, now).None? ==>
        result == CheckError(500, CheckFailed) && sent == None
        && jobs == old(jobs) && lastChecked == old(lastChecked)
      ensures Gathered(old(jobs), searchKeywords, fetch, now).Some? ==>
        var unique := UniqueBy(Gathered(old(jobs), searchKeywords, fetch, now).value, Url);
        var high := Filter(unique, AtThreshold(matchThreshold));
        jobs == KeepLast(old(jobs) + Marked(unique, matchThreshold), MaxStored)
        && lastChecked == Some(now)
        && result == Checked(|unique|, |high|, |jobs|, now)
        && sent == (if |high| > 0 then Some(Notification(notificationEmail, high)) else None)
    {
      var allNewJobs: seq<Job> := [];
      var i := 0;
      while i < |searchKeywords|
        invariant 0 <= i <= |searchKeywords|
        invariant Gathered(jobs, searchKeywords[..i], fetch, now) == Some(allNewJobs)
      {
        assert searchKeywords[..i + 1][..i] == searchKeywords[..i];
        var reply := fetch(searchKeywords[i], SearchLocation);
        match reply {
          case Threw =>
            GatheredThrown(jobs, searchKeywords, i + 1, fetch, now);
            return CheckError(500, CheckFailed), None;
          case NotOk =>
          case Ok(batch) =>
            var newJobs := Filter(batch, IsUnknown(jobs));
            allNewJobs := allNewJobs + Map(newJobs, Stamped(now));
        }
        i := i + 1;
      }
      assert searchKeywords[..i] == searchKeywords;
      var uniqueNewJobs := UniqueBy(allNewJobs, Url);
      var highMatchJobs := Filter(uniqueNewJobs, AtThreshold(matchThreshold));
      sent := None;
      if |highMatchJobs| > 0 {
        sent := Some(Notification(notificationEmail, highMatchJobs));
        uniqueNewJobs := Map(uniqueNewJobs, MarkIfHigh(matchThreshold));
      }
      jobs := jobs + uniqueNewJobs;
      lastChecked := Some(now);
      if |jobs| > MaxStored {
        jobs := jobs[|jobs| - MaxStored..];
      }
      result := Checked(|UniqueBy(allNewJobs, Url)|, |highMatchJobs|, |jobs|, now);
    }
  }

  // ---- what the ingest promises ----

  /** Once a request throws, the whole run throws. */
  lemma {:induction false} GatheredThrown(known: seq<Job>, keywords: seq<String>, n: nat,
                                          fetch: (String, String) -> Reply, now: String)
    requires n <= |keywords|
    requires Gathered(known, keywords[..n], fetch, now).None?
    ensures Gathered(known, keywords, fetch, now).None?
    decreases |keywords| - n
  {
    if n < |keywords| {
      assert keywords[..n + 1][..n] == keywords[..n];
      GatheredThrown(known, keywords, n + 1, fetch, now);
    } else {
      assert keywords[..n] == keywords;
    }
  }

  /**
   * Every gathered job has a URL no stored job had before the run, was found now
   * and is not yet notified.
   */
  lemma {:induction false} GatheredAreNew(known: seq<Job>, keywords: seq<String>,
                                          fetch: (String, String) -> Reply, now: String)
    requires Gathered(known, keywords, fetch, now).Some?
    ensures forall j :: j in Gathered(known, keywords, fetch, now).value ==>
      !KeyOccurs(known, Url, j.url) && j.foundAt == Some(now) && j.notified == Some(false)
    decreases |keywords|
  {
    if keywords != [] {
      var init := keywords[..|keywords| - 1];
      GatheredAreNew(known, init, fetch, now);
      var all := Gathered(known, init, fetch, now).value;
      match fetch(keywords[|keywords| - 1], SearchLocation)
      case NotOk =>
      case Ok(batch) =>
        var stamped := NewInBatch(known, batch, now);
        forall j | j in stamped
          ensures !KeyOccurs(known, Url, j.url) && j.foundAt == Some(now) && j.notified == Some(false)
        {
          var k :| 0 <= k < |stamped| && stamped[k] == j;
          var kept := Filter(batch, IsUnknown(known));
          assert j == kept[k].(foundAt := Some(now), notified := Some(false));
          assert IsUnknown(known)(kept[k]);
        }
    }
  }

  /**
   * The jobs a run adds: no two share a URL, each is the first gathered job with
   * its URL, only its `notified` flag is changed, and that flag is set exactly when
   * the job reaches the threshold.
   */
  lemma AddedShape(all: seq<Job>, threshold: int)
    requires forall j :: j in all ==> j.notified == Some(false)
    ensures var added := Marked(UniqueBy(all, Url), threshold);
      |added| == |UniqueBy(all, Url)|
      && (forall i, j :: 0 <= i < j < |added| ==> added[i].url != added[j].url)
      && (forall j :: 0 <= j < |added| ==>
            added[j] == UniqueBy(all, Url)[j].(notified := added[j].notified))
      && (forall j :: 0 <= j < |added| ==> added[j].notified == Some(ScoreOrZero(added[j]) >= threshold))
  {
    var unique := UniqueBy(all, Url);
    var added := Marked(unique, threshold);
    UniqueByDistinct(all, Url);
    UniqueByIsSubseq(all, Url);
    SubseqMembers(unique, all);
    forall j | 0 <= j < |added|
      ensures added[j] == unique[j].(notified := added[j].notified)
      ensures added[j].notified == Some(ScoreOrZero(added[j]) >= threshold)
    {
      assert unique[j] in all;
      if |Filter(unique, AtThreshold(threshold))| == 0 {
        FilterMembers(unique, AtThreshold(threshold), unique[j]);
      }
    }
  }

  /**
   * Put together: every job a run adds has a URL absent from the database before
   * the run, was found now, and is marked notified exactly when it reaches the threshold.
   */
  lemma AddedAreNew(known: seq<Job>, keywords: seq<String>, fetch: (String, String) -> Reply, now: String,
                    threshold: int)
    requires Gathered(known, keywords, fetch, now).Some?
    ensures var added := Marked(UniqueBy(Gathered(known, keywords, fetch, now).value, Url), threshold);
      forall j :: 0 <= j < |added| ==>
        !KeyOccurs(known, Url, added[j].url) && added[j].foundAt == Some(now)
        && added[j].notified == Some(ScoreOrZero(added[j]) >= threshold)
  {
    var all := Gathered(known, keywords, fetch, now).value;
    var unique := UniqueBy(all, Url);
    GatheredAreNew(known, keywords, fetch, now);
    AddedShape(all, threshold);
    UniqueByIsSubseq(all, Url);
    SubseqMembers(unique, all);
    forall j | 0 <= j < |unique| ensures unique[j] in all {
    }
  }

  /** Each added job is the first gathered job with its URL, and every gathered URL ends up added. */
  lemma AddedFirstAndCovering(all: seq<Job>, threshold: int)
    ensures var added := Marked(UniqueBy(all, Url), threshold);
      (forall i :: 0 <= i < |all| ==> KeyOccurs(added, Url, all[i].url))
      && (forall j :: 0 <= j < |added| ==>
            exists i :: 0 <= i < |all| && all[i].url == added[j].url && !KeyOccurs(all[..i], Url, all[i].url))
  {
    var unique := UniqueBy(all, Url);
    var added := Marked(unique, threshold);
    assert forall j :: 0 <= j < |added| ==> added[j].url == unique[j].url;
    UniqueByCovers(all, Url);
    forall i | 0 <= i < |all| ensures KeyOccurs(added, Url, all[i].url) {
      var k :| 0 <= k < |unique| && Url(unique[k]) == all[i].url;
      assert Url(added[k]) == all[i].url;
    }
    forall j | 0 <= j < |added|
      ensures exists i :: 0 <= i < |all| && all[i].url == added[j].url && !KeyOccurs(all[..i], Url, all[i].url)
    {
      UniqueByKeepsFirst(all, Url, j);
    }
  }

  /**
   * The 500 cap keeps the last min(500, |s|) entries in order; below the cap
   * nothing is dropped.
   */
  lemma KeepLastShape(s: seq<Job>, n: nat)
    ensures |KeepLast(s, n)| == if |s| <= n then |s| else n
    ensures KeepLast(s, n) == s[|s| - |KeepLast(s, n)|..]
    ensures |s| <= n ==> KeepLast(s, n) == s
  {
  }

  /** Below the cap the stored jobs stay in front, untouched, and the added ones follow. */
  lemma StoredBelowCap(stored: seq<Job>, added: seq<Job>)
    requires |stored| + |added| <= MaxStored
    ensures KeepLast(stored + added, MaxStored)[..|stored|] == stored
    ensures KeepLast(stored + added, MaxStored)[|stored|..] == added
  {
  }

  /** A run over one keyword whose response is ok, against an empty database. */
  lemma GatheredOne(keyword: String, fetch: (String, String) -> Reply, now: String)
    requires fetch(keyword, SearchLocation).Ok?
    ensures Gathered([], [keyword], fetch, now) == Some(Map(fetch(keyword, SearchLocation).jobs, Stamped(now)))
  {
    var batch := fetch(keyword, SearchLocation).jobs;
    assert [keyword][..0] == [];
    FilterAll(batch, IsUnknown([]));
    assert NewInBatch([], batch, now) == Map(batch, Stamped(now));
    assert [] + Map(batch, Stamped(now)) == Map(batch, Stamped(now));
  }
}
