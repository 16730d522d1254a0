/**
 * The job record shared by the listing route, the job database and the jobs page.
 * The optional fields are the ones the source declares optional (`matchScore?`,
 * `foundAt?`, `notified?`) or nullable (`salary`).
 */
module JobRecords {
  import opened Wrappers
  import opened Strings

  datatype Job = Job(
    id: String,
    title: String,
    company: String,
    location: String,
    description: String,
    url: String,
    postedDate: String,
    salary: Option<String>,
    contractType: String,
    matchScore: Option<int>,
    foundAt: Option<String>,
    notified: Option<bool>)

  /** `job.matchScore || 0`: a missing score counts as 0. */
  function ScoreOrZero(job: Job): (r: int)
    ensures job.matchScore.None? ==> r == 0
    ensures job.matchScore.Some? ==> r == job.matchScore.value
  {
    job.matchScore.GetOr(0)
  }

  function Url(job: Job): String {
    job.url
  }

  /** `j => j.url === url` */
  function HasUrl(url: String): Job -> bool {
    (job: Job) => job.url == url
  }
}
