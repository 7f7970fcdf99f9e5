/** `app/services/job_service.py`: the job search over the board's latest listings. The HTTP
    request is not modelled; its outcome is an input. The listings are filtered on the
    client side with a case-insensitive substring test. The kept descriptions are
    truncated and the result is capped. When nothing is found, three mock jobs are
    returned instead. */
module JobService {
  import opened Base
  import opened Text

  /** One entry of the board's `data` list; each key is missing, null or present. */
  datatype ApiJob = ApiJob(
    title: Field<string>, companyName: Field<string>, location: Field<string>,
    url: Field<string>, remote: Field<bool>, description: Field<string>)

  /** What the request gave. `Failed` stands for a raised request or decoding error and for
      a status other than 200. `Fetched` carries the `data` list of a 200 answer, where a
      missing `data` key reads as `[]`. */
  datatype Fetch = Failed | Fetched(data: seq<ApiJob>)

  /** A job dictionary as the service returns it. */
  datatype Job = Job(
    title: Option<string>, company: Option<string>, location: Option<string>,
    url: Option<string>, remote: Option<bool>, description: string)

  const MaxDescription := 200
  const Ellipsis := "..."

  /** The job as the service shows it, given its description. The description is cut to
      200 characters and "..." is always added. The title and the other keys are read with
      `.get`, so a missing key shows as None, and `remote` defaults to false. */
  function Shown(job: ApiJob, description: string): (r: Job)
    ensures |r.description| == Min(|description|, MaxDescription) + |Ellipsis|
    ensures r.description == description[..Min(|description|, MaxDescription)] + Ellipsis
    ensures job.remote.Absent? ==> r.remote == Some(false)
    ensures r.title == job.title.Get() && r.url == job.url.Get()
  {
    Job(job.title.Get(), job.companyName.Get(), job.location.Get(), job.url.Get(),
      job.remote.GetOr(false), description[..Min(|description|, MaxDescription)] + Ellipsis)
  }

  /** What one pass of a listing loop does with a job: it raises (None), skips the job
      (Some(None)) or appends the shown job (Some(Some(j))). */
  type Step = ApiJob -> Option<Option<Job>>

  /** `job.get(key, "").lower()`: a missing key reads as "", and a null value raises. */
  function LoweredOrEmpty(f: Field<string>): (r: Option<string>)
    ensures r.None? <==> f.Null?
    ensures f.Absent? ==> r == Some("")
    ensures f.Value? ==> r == Some(Lower(f.value))
  {
    match f
    case Absent => Some("")
    case Null => None
    case Value(s) => Some(Lower(s))
  }

  /** The filter on one listing. The title and the description are lowered, then the
      query is lowered. The job is kept when the lowered query occurs in either of them.
      Building the kept job then slices `job.get("description")`, which raises when the
      key is missing. */
  function Examine(job: ApiJob, query: Option<string>): Option<Option<Job>> {
    match (LoweredOrEmpty(job.title), LoweredOrEmpty(job.description), query)
    case (Some(t), Some(d), Some(q)) =>
      if Contains(t, Lower(q)) || Contains(d, Lower(q)) then
        (if job.description.Value? then Some(Some(Shown(job, job.description.value))) else None)
      else Some(None)
    case _ => None
  }

  function FilterStep(query: Option<string>): Step {
    (job: ApiJob) => Examine(job, query)
  }

  /** The unfiltered loop of the "recent jobs" branch: every job is shown, and a missing
      description raises. */
  function RecentStep(): Step {
    (job: ApiJob) => if job.description.Value? then Some(Some(Shown(job, job.description.value))) else None
  }

  /** The jobs a listing loop collected, and whether it stopped by raising. */
  datatype Scan = Scan(jobs: seq<Job>, raised: bool)

  /** A listing loop over `data` with body `step`. It stops at the first job whose step
      raises and keeps what it had appended before. */
  function ScanWith(data: seq<ApiJob>, step: Step): (r: Scan)
    ensures |r.jobs| <= |data|
  {
    if data == [] then Scan([], false)
    else
      var prev := ScanWith(data[..|data| - 1], step);
      if prev.raised then prev
      else match step(data[|data| - 1])
        case None => Scan(prev.jobs, true)
        case Some(None) => prev
        case Some(Some(j)) => Scan(prev.jobs + [j], false)
  }

  /** Listing a concatenation lists the first part and then the second part, so the board's
      order is kept. This holds unless the first part raised. */
  lemma {:induction false} ScanAppend(a: seq<ApiJob>, b: seq<ApiJob>, step: Step)
    requires !ScanWith(a, step).raised
    ensures ScanWith(a + b, step) == Scan(ScanWith(a, step).jobs + ScanWith(b, step).jobs, ScanWith(b, step).raised)
  {
    if b == [] {
      assert a + b == a;
    } else {
      var b' := b[..|b| - 1];
      ScanAppend(a, b', step);
      assert (a + b)[..|a + b| - 1] == a + b';
      assert (a + b)[|a + b| - 1] == b[|b| - 1];
    }
  }

  /** A single job is kept exactly when its step shows it, and a raising step stops the loop. */
  lemma ScanOne(x: ApiJob, step: Step)
    ensures ScanWith([x], step) == match step(x)
      case None => Scan([], true)
      case Some(None) => Scan([], false)
      case Some(Some(j)) => Scan([j], false)
  {
    assert [x][..0] == [];
  }

  /** Once a loop has raised, the jobs after that point are never examined. */
  lemma {:induction false} RaisedStays(a: seq<ApiJob>, b: seq<ApiJob>, step: Step)
    requires ScanWith(a, step).raised
    ensures ScanWith(a + b, step) == ScanWith(a, step)
  {
    if b == [] {
      assert a + b == a;
    } else {
      RaisedStays(a, b[..|b| - 1], step);
      assert (a + b)[..|a + b| - 1] == a + b[..|b| - 1];
    }
  }

  /** The kept jobs are exactly the matching ones when no job raises. A job matches when
      the lowered query occurs in its lowered title or its lowered description. */
  lemma KeptIffMatches(x: ApiJob, query: string)
    requires !x.title.Null? && x.description.Value?
    ensures var t := x.title.GetOr("").value; var d := x.description.value;
      ScanWith([x], FilterStep(Some(query)))
        == if Contains(Lower(t), Lower(query)) || Contains(Lower(d), Lower(query))
           then Scan([Shown(x, d)], false) else Scan([], false)
  {
    ScanOne(x, FilterStep(Some(query)));
  }

  /** The empty query occurs in every text, so it keeps every well-formed job. */
  lemma {:induction false} EmptyQueryKeepsAll(data: seq<ApiJob>)
    requires forall i | 0 <= i < |data| :: !data[i].title.Null? && data[i].description.Value?
    ensures var s := ScanWith(data, FilterStep(Some("")));
      !s.raised && |s.jobs| == |data|
      && forall i | 0 <= i < |data| :: s.jobs[i] == Shown(data[i], data[i].description.value)
  {
    if data != [] {
      var p := data[..|data| - 1];
      EmptyQueryKeepsAll(p);
      var x := data[|data| - 1];
      ContainsEmpty(Lower(x.title.GetOr("").value));
      assert Lower("") == "";
    }
  }

  /** A loop over a non-empty listing with the empty or the missing query either raises or
      appends its first job, and it never drops a job it has appended. */
  lemma {:induction false} FalsyQueryFindsOrRaises(data: seq<ApiJob>, query: Option<string>)
    requires data != [] && (query == None || query == Some(""))
    ensures var s := ScanWith(data, FilterStep(query)); s.raised || s.jobs != []
  {
    var p := data[..|data| - 1];
    var x := data[|data| - 1];
    if p != [] {
      FalsyQueryFindsOrRaises(p, query);
    }
    if query.Some? && !x.title.Null? {
      ContainsEmpty(Lower(x.title.GetOr("").value));
      assert Lower("") == "";
    }
  }

  /** Python truthiness of the optional query. */
  predicate QueryTruthy(query: Option<string>) {
    query.Some? && query.value != ""
  }

  /** The "recent jobs" branch runs only when the filter neither raised nor kept a job and
      the query is falsy. That happens only for an empty listing, so the branch never adds
      a job. */
  lemma RecentBranchDead(data: seq<ApiJob>, query: Option<string>)
    requires var s := ScanWith(data, FilterStep(query)); !s.raised && s.jobs == []
    requires !QueryTruthy(query)
    ensures data == []
  {
    if data != [] {
      FalsyQueryFindsOrRaises(data, query);
    }
  }

  /** The three jobs returned when the search found nothing. Their first two titles name
      the capitalised query, or "Software" and "Python" when the query is falsy. */
  function MockJobs(query: Option<string>): (r: seq<Job>)
    ensures |r| == 3
    ensures forall i | 0 <= i < 3 :: r[i].url == Some("#")
    ensures r[2].title == Some("Product Manager")
    ensures QueryTruthy(query) ==> r[0].title == Some("Senior " + Capitalize(query.value) + " Engineer")
  {
    var senior := if QueryTruthy(query) then Capitalize(query.value) else "Software";
    var junior := if QueryTruthy(query) then Capitalize(query.value) else "Python";
    [ Job(Some("Senior " + senior + " Engineer"), Some("Tech Innovators Inc."),
          Some("Remote"), Some("#"), Some(true), SeniorText),
      Job(Some("Junior " + junior + " Developer"), Some("Startup Hub"),
          Some("New York, NY"), Some("#"), Some(false), JuniorText),
      Job(Some("Product Manager"), Some("Global Solutions"), Some("London, UK"), Some("#"), Some(true), ManagerText) ]
  }

  const SeniorText := "Leading development of scalable web applications using modern technologies."
  const JuniorText := "Great opportunity for junior devs to learn and grow in a fast-paced environment."
  const ManagerText := "Overseeing product lifecycle from conception to launch."

  /** The jobs the filter collected before it finished or raised; none when the request
      failed. */
  function Collected(query: Option<string>, fetch: Fetch): seq<Job> {
    match fetch
    case Failed => []
    case Fetched(data) => ScanWith(data, FilterStep(query)).jobs
  }

  /** What `search_jobs(query, location, limit)` returns. `location` is not used. */
  function SearchResult(query: Option<string>, limit: int, fetch: Fetch): seq<Job> {
    var jobs := Collected(query, fetch);
    if jobs == [] then MockJobs(query) else PyPrefix(jobs, limit)
  }

  /** The mock jobs are the answer exactly when nothing was collected. In that case there
      are three of them, whatever the limit. Otherwise the answer is the collected jobs,
      cut to the limit. */
  lemma SearchFallback(query: Option<string>, limit: int, fetch: Fetch)
    ensures var r := SearchResult(query, limit, fetch);
      && (Collected(query, fetch) == [] ==> r == MockJobs(query) && |r| == 3)
      && (Collected(query, fetch) != [] ==> r == PyPrefix(Collected(query, fetch), limit))
      && (Collected(query, fetch) != [] && limit >= 0 ==> |r| <= limit)
      && (fetch.Failed? ==> r == MockJobs(query))
  {
  }

  /** The shared listing loop: it appends the job each step shows and stops at the first
      step that raises. */
  method ScanJobs(data: seq<ApiJob>, step: Step) returns (jobs: seq<Job>, raised: bool)
    ensures Scan(jobs, raised) == ScanWith(data, step)
  {
    jobs, raised := [], false;
    var i := 0;
    while i < |data|
      invariant 0 <= i <= |data|
      invariant ScanWith(data[..i], step) == Scan(jobs, false)
    {
      var s := step(data[i]);
      assert data[..i + 1][..i] == data[..i];
      if s.None? {
        RaisedStays(data[..i + 1], data[i + 1..], step);
        assert data[..i + 1] + data[i + 1..] == data;
        return jobs, true;
      }
      if s.value.Some? {
        jobs := jobs + [s.value.value];
      }
      i := i + 1;
    }
    assert data[..i] == data;
  }

  /** The `try` block of `search_jobs`: the filter loop, then the "recent jobs" loop when
      the filter found nothing for a falsy query. An exception ends the block and keeps
      the jobs collected so far. */
  method FetchAndFilter(query: Option<string>, limit: int, fetch: Fetch) returns (jobs: seq<Job>)
    ensures jobs == Collected(query, fetch)
  {
    jobs := [];
    if fetch.Fetched? {
      var raised;
      jobs, raised := ScanJobs(fetch.data, FilterStep(query));
      if !raised && jobs == [] && !QueryTruthy(query) {
        RecentBranchDead(fetch.data, query);
        assert PyPrefix(fetch.data, limit) == [];
        var recent, _ := ScanJobs(PyPrefix(fetch.data, limit), RecentStep());
        assert recent == [];
        jobs := jobs + recent;
      }
    }
  }

  /** `search_jobs`: the mock jobs when nothing was collected, otherwise the collected jobs
      cut to the limit. */
  method SearchJobs(query: Option<string>, limit: int, fetch: Fetch) returns (r: seq<Job>)
    ensures r == SearchResult(query, limit, fetch)
  {
    var jobs := FetchAndFilter(query, limit, fetch);
    r := if jobs == [] then MockJobs(query) else PyPrefix(jobs, limit);
  }
}
