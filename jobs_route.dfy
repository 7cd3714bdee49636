/**
 * The job endpoints and their in-memory job registry: job creation,
 * lookup, status polling with a time estimate, cancellation, and listing
 * with filters, newest-first order and pagination. Listing tries the
 * database first; its answer is a parameter here.
 */
module JobsRoute {
  import opened Wrappers
  import Sorting
  import Paging
  import DbService
  import Seqs
  import Payload
  import Numeric

  const NotFound: int := 404
  const BadRequest: int := 400
  const Unprocessable: int := 422

  /** The route's status enum; unlike the database enum it has Partial. */
  datatype JobStatus = Pending | Ingesting | Processing | Enriching | Completed | Failed | Partial

  datatype JobPriority = Low | Normal | High

  function StatusValue(s: JobStatus): string
  {
    match s
    case Pending => "pending"
    case Ingesting => "ingesting"
    case Processing => "processing"
    case Enriching => "enriching"
    case Completed => "completed"
    case Failed => "failed"
    case Partial => "partial"
  }

  /** `JobStatus(v)`: the member with this value, or the ValueError it raises. */
  function ParseStatus(v: string): (r: Option<JobStatus>)
    ensures r.Some? ==> StatusValue(r.value) == v
  {
    if v == "pending" then Some(Pending)
    else if v == "ingesting" then Some(Ingesting)
    else if v == "processing" then Some(Processing)
    else if v == "enriching" then Some(Enriching)
    else if v == "completed" then Some(Completed)
    else if v == "failed" then Some(Failed)
    else if v == "partial" then Some(Partial)
    else None
  }

  function PriorityValue(p: JobPriority): string
  {
    match p
    case Low => "low"
    case Normal => "normal"
    case High => "high"
  }

  function ParsePriority(v: string): (r: Option<JobPriority>)
    ensures r.Some? ==> PriorityValue(r.value) == v
  {
    if v == "low" then Some(Low)
    else if v == "normal" then Some(Normal)
    else if v == "high" then Some(High)
    else None
  }

  /** Every member's value parses back to that member, so the values are distinct. */
  lemma EnumRoundTrip(s: JobStatus, p: JobPriority)
    ensures ParseStatus(StatusValue(s)) == Some(s)
    ensures ParsePriority(PriorityValue(p)) == Some(p)
  {
  }

  /** The job dictionary of the registry; it is also the detail view. */
  datatype MockJob = MockJob(
    jobId: string,
    tenant: string,
    sourceType: string,
    status: JobStatus,
    priority: JobPriority,
    mode: string,
    itemsTotal: int,
    itemsProcessed: int,
    itemsSuccess: int,
    itemsFailed: int,
    progressPercent: int,
    createdAt: int,
    startedAt: Option<int>,
    completedAt: Option<int>,
    updatedAt: int,
    accounts: Option<seq<string>>,
    keywords: Option<seq<string>>,
    errorMessage: Option<string>,
    retryCount: int,
    processingTimeMs: Option<int>)

  /** The `data` dictionary handed to `create_mock_job`: None is an absent key. */
  datatype JobInput = JobInput(
    tenant: Option<string>,
    sourceType: Option<string>,
    priority: Option<JobPriority>,
    mode: Option<string>,
    items: Option<seq<Payload.IngestItem>>,
    acceptedAt: Option<int>,
    accounts: Option<seq<string>>,
    keywords: Option<seq<string>>)

  /** The record `create_mock_job` stores. */
  function NewMockJob(jobId: string, data: JobInput, now: int): (j: MockJob)
    ensures j.jobId == jobId && j.status == Pending
    ensures j.tenant == GetOr(data.tenant, "default") && j.sourceType == GetOr(data.sourceType, "scraped")
    ensures j.priority == GetOr(data.priority, Normal) && j.mode == GetOr(data.mode, "realtime")
    ensures j.itemsTotal == (if data.items.Some? then |data.items.value| else 0)
    ensures j.itemsProcessed == 0 && j.itemsSuccess == 0 && j.itemsFailed == 0 && j.progressPercent == 0 && j.retryCount == 0
    ensures j.createdAt == GetOr(data.acceptedAt, now) && j.updatedAt == now
    ensures j.startedAt.None? && j.completedAt.None? && j.errorMessage.None? && j.processingTimeMs.None?
    ensures j.accounts == data.accounts && j.keywords == data.keywords
  {
    MockJob(jobId, GetOr(data.tenant, "default"), GetOr(data.sourceType, "scraped"), Pending,
            GetOr(data.priority, Normal), GetOr(data.mode, "realtime"),
            if data.items.Some? then |data.items.value| else 0, 0, 0, 0, 0,
            GetOr(data.acceptedAt, now), None, None, now, data.accounts, data.keywords, None, 0, None)
  }

  // ------------------------------------------------------------ listing

  /** The query's filters; a string filter is active only when non-empty. */
  datatype Filters = Filters(
    tenant: Option<string>,
    status: Option<JobStatus>,
    sourceType: Option<string>,
    priority: Option<JobPriority>)

  predicate Matches(j: MockJob, f: Filters)
  {
    (!DbService.Active(f.tenant) || j.tenant == f.tenant.value) &&
    (f.status.None? || j.status == f.status.value) &&
    (!DbService.Active(f.sourceType) || j.sourceType == f.sourceType.value) &&
    (f.priority.None? || j.priority == f.priority.value)
  }

  /** The four successive list comprehensions of the in-memory branch. */
  function FilterJobs(js: seq<MockJob>, f: Filters): (r: seq<MockJob>)
    ensures |r| <= |js|
    ensures forall j :: j in r <==> j in js && Matches(j, f)
  {
    if js == [] then []
    else (if Matches(js[0], f) then [js[0]] else []) + FilterJobs(js[1..], f)
  }

  function CreatedKey(j: MockJob): real { j.createdAt as real }

  datatype JobSummary = JobSummary(
    jobId: string,
    tenant: string,
    sourceType: string,
    status: JobStatus,
    priority: JobPriority,
    itemsTotal: int,
    itemsProcessed: int,
    createdAt: int,
    updatedAt: int,
    errorMessage: Option<string>)

  function Summary(j: MockJob): JobSummary
  {
    JobSummary(j.jobId, j.tenant, j.sourceType, j.status, j.priority, j.itemsTotal, j.itemsProcessed,
               j.createdAt, j.updatedAt, j.errorMessage)
  }

  function Summaries(js: seq<MockJob>): (r: seq<JobSummary>)
    ensures |r| == |js| && forall i :: 0 <= i < |js| ==> r[i] == Summary(js[i])
  {
    if js == [] then [] else [Summary(js[0])] + Summaries(js[1..])
  }

  /** A database row as a summary; a status or priority outside the enums raises. */
  function RowSummary(row: DbService.DbJob): Option<JobSummary>
  {
    var st := ParseStatus(row.status);
    var pr := ParsePriority(row.priority);
    if st.None? || pr.None? then None
    else Some(JobSummary(row.id, row.tenant, row.sourceType, st.value, pr.value, row.itemsTotal,
                         row.itemsProcessed, row.createdAt, row.updatedAt, row.errorMessage))
  }

  /** The summaries of all rows, or None when any conversion raises. */
  function RowSummaries(rows: seq<DbService.DbJob>): (r: Option<seq<JobSummary>>)
    ensures r.Some? <==> forall i :: 0 <= i < |rows| ==> RowSummary(rows[i]).Some?
    ensures r.Some? ==> |r.value| == |rows| && forall i :: 0 <= i < |rows| ==> Some(r.value[i]) == RowSummary(rows[i])
  {
    if rows == [] then Some([])
    else
      var head := RowSummary(rows[0]);
      var tail := RowSummaries(rows[1..]);
      if head.None? || tail.None? then
        assert head.None? ==> !RowSummary(rows[0]).Some?;
        None
      else Some([head.value] + tail.value)
  }

  datatype JobList = JobList(jobs: seq<JobSummary>, page: int, limit: int, total: nat, totalPages: nat)

  /** The query's bounds: `page >= 1` and `1 <= limit <= 100`, else 422. */
  predicate ValidPaging(page: int, limit: int) { page >= 1 && 1 <= limit <= 100 }

  function LookupJobs(keys: seq<string>, m: map<string, MockJob>): (r: seq<MockJob>)
    requires forall k :: k in keys ==> k in m
    ensures |r| == |keys| && forall i :: 0 <= i < |keys| ==> r[i] == m[keys[i]]
  {
    if keys == [] then [] else [m[keys[0]]] + LookupJobs(keys[1..], m)
  }

  // ------------------------------------------------------------ polling

  /**
   * The remaining-time estimate: elapsed time scaled by the remaining
   * share of progress, when progress is positive and a non-zero
   * processing time is recorded.
   */
  function Estimate(progress: int, processingTimeMs: Option<int>): (e: Option<int>)
    ensures e.Some? <==> progress > 0 && processingTimeMs.Some? && processingTimeMs.value != 0
    ensures e.Some? && processingTimeMs.value > 0 && progress <= 100 ==> e.value >= 0
    ensures e.Some? && progress == 100 ==> e.value == 0
  {
    if progress > 0 && processingTimeMs.Some? && processingTimeMs.value != 0 then
      var perPoint := processingTimeMs.value as real / progress as real;
      var remaining := (100 - progress) as real;
      assert processingTimeMs.value > 0 ==> perPoint > 0.0;
      assert processingTimeMs.value > 0 && progress <= 100 ==> perPoint * remaining >= 0.0;
      Numeric.TruncBounds(perPoint * remaining);
      Some(Numeric.Trunc(perPoint * remaining))
    else None
  }

  datatype StatusReport = StatusReport(
    jobId: string,
    status: JobStatus,
    progressPercent: int,
    itemsProcessed: int,
    itemsTotal: int,
    estimatedTimeRemaining: Option<int>)

  /** The HTTP status `cancel_job` answers for the registry's entry: 404, 400 or 204. */
  function CancelCode(job: Option<MockJob>): (code: int)
    ensures code == NotFound <==> job.None?
    ensures code == BadRequest <==> job.Some? && (job.value.status == Completed || job.value.status == Failed)
    ensures code == 204 <==> job.Some? && job.value.status != Completed && job.value.status != Failed
  {
    if job.None? then NotFound
    else if job.value.status == Completed || job.value.status == Failed then BadRequest
    else 204
  }

  /** A cancelled job: failed, with the cancellation message and a fresh update time. */
  function Cancelled(j: MockJob, now: int): (r: MockJob)
    ensures r.status == Failed && r.errorMessage == Some("Cancelled by user") && r.updatedAt == now
    ensures r == j.(status := Failed, errorMessage := Some("Cancelled by user"), updatedAt := now)
  {
    j.(status := Failed, errorMessage := Some("Cancelled by user"), updatedAt := now)
  }

  /** Cancelling twice is refused: a cancelled job answers 400. */
  lemma CancelOnce(j: MockJob, now: int)
    ensures CancelCode(Some(Cancelled(j, now))) == BadRequest
  {
  }

  /** The listing pipeline on a sequence of jobs: filter, newest first, one page, summaries. */
  function ListedPage(all: seq<MockJob>, f: Filters, page: int, limit: int): seq<JobSummary>
    requires ValidPaging(page, limit)
  {
    Summaries(Paging.Page(Sorting.SortDesc(FilterJobs(all, f), CreatedKey), page, limit))
  }

  /** Entry `i` of a slice of the sorted matches is a matching job of the input. */
  lemma SliceFromMatching(all: seq<MockJob>, f: Filters, pg: seq<MockJob>, start: nat, end: nat, i: nat)
    requires pg == Paging.Slice(Sorting.SortDesc(FilterJobs(all, f), CreatedKey), start, end)
    requires i < |pg|
    ensures pg[i] in all && Matches(pg[i], f)
  {
    var sorted := Sorting.SortDesc(FilterJobs(all, f), CreatedKey);
    assert pg[i] == sorted[start + i];
    assert pg[i] in multiset(sorted);
  }

  /** A slice of the sorted matches is newest first. */
  lemma SliceNewestFirst(all: seq<MockJob>, f: Filters, pg: seq<MockJob>, start: nat, end: nat)
    requires pg == Paging.Slice(Sorting.SortDesc(FilterJobs(all, f), CreatedKey), start, end)
    ensures forall a, b :: 0 <= a < b < |pg| ==> pg[a].createdAt >= pg[b].createdAt
  {
    var sorted := Sorting.SortDesc(FilterJobs(all, f), CreatedKey);
    forall a, b | 0 <= a < b < |pg| ensures pg[a].createdAt >= pg[b].createdAt {
      assert pg[a] == sorted[start + a] && pg[b] == sorted[start + b];
    }
  }

  class MockJobStore {
    var jobs: map<string, MockJob>
    /** The keys of `jobs` in insertion order. */
    var order: seq<string>

    ghost predicate Valid()
      reads this
    {
      Seqs.Distinct(order) && (forall k :: k in order <==> k in jobs)
    }

    constructor ()
      ensures Valid() && jobs == map[] && order == []
    {
      jobs, order := map[], [];
    }

    /** `list(_mock_jobs.values())`. */
    function JobsInOrder(): (js: seq<MockJob>)
      reads this
      requires Valid()
      ensures |js| == |order| && forall i :: 0 <= i < |order| ==> js[i] == jobs[order[i]]
    {
      LookupJobs(order, jobs)
    }

    /** `create_mock_job`: stores (or replaces) the pending record under the id. */
    method CreateMockJob(jobId: string, data: JobInput, now: int)
      requires Valid()
      modifies this
      ensures Valid()
      ensures jobs == old(jobs)[jobId := NewMockJob(jobId, data, now)]
      ensures order == if jobId in old(jobs) then old(order) else old(order) + [jobId]
    {
      if jobId !in jobs {
        order := order + [jobId];
      }
      jobs := jobs[jobId := NewMockJob(jobId, data, now)];
    }

    function GetMockJob(jobId: string): (r: Option<MockJob>)
      reads this
      ensures r.Some? <==> jobId in jobs
      ensures r.Some? ==> r.value == jobs[jobId]
    {
      if jobId in jobs then Some(jobs[jobId]) else None
    }

    /** `get_job`: the full record, or 404. */
    function GetJob(jobId: string): (r: Result<MockJob, int>)
      reads this
      ensures r.Err? <==> jobId !in jobs
      ensures r.Err? ==> r.error == NotFound
      ensures r.Ok? ==> r.value == jobs[jobId]
    {
      if jobId in jobs then Ok(jobs[jobId]) else Err(NotFound)
    }

    /** `get_job_status`: the polling view with its estimate, or 404. */
    function GetJobStatus(jobId: string): (r: Result<StatusReport, int>)
      reads this
      ensures r.Err? <==> jobId !in jobs
      ensures r.Err? ==> r.error == NotFound
      ensures r.Ok? ==> var j := jobs[jobId];
        r.value.jobId == j.jobId && r.value.status == j.status && r.value.progressPercent == j.progressPercent &&
        r.value.itemsProcessed == j.itemsProcessed && r.value.itemsTotal == j.itemsTotal &&
        (r.value.estimatedTimeRemaining.Some? <==>
          j.progressPercent > 0 && j.processingTimeMs.Some? && j.processingTimeMs.value != 0)
    {
      if jobId !in jobs then Err(NotFound)
      else
        var j := jobs[jobId];
        Ok(StatusReport(j.jobId, j.status, j.progressPercent, j.itemsProcessed, j.itemsTotal,
                        Estimate(j.progressPercent, j.processingTimeMs)))
    }

    /** `cancel_job`: 404 or 400 leave the registry alone; otherwise the job is marked failed. */
    method CancelJob(jobId: string, now: int) returns (code: int)
      requires Valid()
      modifies this
      ensures Valid() && order == old(order)
      ensures code == CancelCode(old(GetMockJob(jobId)))
      ensures code != 204 ==> jobs == old(jobs)
      ensures code == 204 ==> jobs == old(jobs)[jobId := Cancelled(old(jobs)[jobId], now)]
    {
      code := CancelCode(GetMockJob(jobId));
      if code == 204 {
        jobs := jobs[jobId := Cancelled(jobs[jobId], now)];
      }
    }

    /** The in-memory branch of `list_jobs`: filter, newest first, one page. */
    function InMemoryList(f: Filters, page: int, limit: int): (r: JobList)
      reads this
      requires Valid() && ValidPaging(page, limit)
      ensures var matching := FilterJobs(JobsInOrder(), f);
        r.total == |matching| && r.totalPages == Paging.TotalPages(|matching|, limit) &&
        r.jobs == ListedPage(JobsInOrder(), f, page, limit) &&
        r.page == page && r.limit == limit
    {
      var matching := FilterJobs(JobsInOrder(), f);
      var sorted := Sorting.SortDesc(matching, CreatedKey);
      JobList(Summaries(Paging.Page(sorted, page, limit)), page, limit, |matching|,
              Paging.TotalPages(|matching|, limit))
    }

    /**
     * `list_jobs`: 422 for bad bounds; the database's rows when it answered
     * with a non-empty page it can convert (that query filters only by
     * tenant and status); otherwise the in-memory listing.
     */
    function ListJobs(f: Filters, page: int, limit: int, db: Option<(seq<DbService.DbJob>, nat)>): (r: Result<JobList, int>)
      reads this
      requires Valid()
      ensures r.Err? <==> !ValidPaging(page, limit)
      ensures r.Err? ==> r.error == Unprocessable
      ensures ValidPaging(page, limit) && db.Some? && db.value.0 != [] && RowSummaries(db.value.0).Some? ==>
        r == Ok(JobList(RowSummaries(db.value.0).value, page, limit, db.value.1, Paging.TotalPages(db.value.1, limit)))
      ensures ValidPaging(page, limit) && !(db.Some? && db.value.0 != [] && RowSummaries(db.value.0).Some?) ==>
        r == Ok(InMemoryList(f, page, limit))
    {
      if !ValidPaging(page, limit) then Err(Unprocessable)
      else if db.Some? && db.value.0 != [] && RowSummaries(db.value.0).Some? then
        Ok(JobList(RowSummaries(db.value.0).value, page, limit, db.value.1, Paging.TotalPages(db.value.1, limit)))
      else Ok(InMemoryList(f, page, limit))
    }

    // ------------------------------------------------------------ properties

    /** The in-memory page holds at most `limit` summaries; the page count covers the total. */
    lemma InMemoryListBounds(f: Filters, page: int, limit: int)
      requires Valid() && ValidPaging(page, limit)
      ensures var r := InMemoryList(f, page, limit);
        |r.jobs| <= limit && r.total <= |jobs| && r.totalPages * limit >= r.total
    {
      DistinctCard();
    }

    /** Each summary on the page is that of a stored job matching every filter. */
    lemma InMemoryListMatches(f: Filters, page: int, limit: int, i: nat)
      requires Valid() && ValidPaging(page, limit)
      requires i < |InMemoryList(f, page, limit).jobs|
      ensures exists j :: j in jobs.Values && Matches(j, f) && InMemoryList(f, page, limit).jobs[i] == Summary(j)
    {
      var all := JobsInOrder();
      var sorted := Sorting.SortDesc(FilterJobs(all, f), CreatedKey);
      var start := Paging.Offset(page, limit);
      var pg := Paging.Slice(sorted, start, page * limit);
      assert pg == Paging.Page(sorted, page, limit);
      SliceFromMatching(all, f, pg, start, page * limit, i);
      var k :| 0 <= k < |all| && all[k] == pg[i];
      assert jobs[order[k]] == pg[i];
    }

    /** The page is ordered newest first. */
    lemma InMemoryListNewestFirst(f: Filters, page: int, limit: int)
      requires Valid() && ValidPaging(page, limit)
      ensures var r := InMemoryList(f, page, limit);
        forall a, b :: 0 <= a < b < |r.jobs| ==> r.jobs[a].createdAt >= r.jobs[b].createdAt
    {
      var sorted := Sorting.SortDesc(FilterJobs(JobsInOrder(), f), CreatedKey);
      var start := Paging.Offset(page, limit);
      var pg := Paging.Slice(sorted, start, page * limit);
      assert pg == Paging.Page(sorted, page, limit);
      SliceNewestFirst(JobsInOrder(), f, pg, start, page * limit);
    }

    /** Every matching job appears exactly where its newest-first rank puts it. */
    lemma InMemoryListComplete(f: Filters, limit: int, i: nat)
      requires Valid() && 1 <= limit <= 100
      requires i < |FilterJobs(JobsInOrder(), f)|
      ensures var sorted := Sorting.SortDesc(FilterJobs(JobsInOrder(), f), CreatedKey);
        var r := InMemoryList(f, i / limit + 1, limit);
        i / limit + 1 <= r.totalPages && i % limit < |r.jobs| && r.jobs[i % limit] == Summary(sorted[i])
    {
      var sorted := Sorting.SortDesc(FilterJobs(JobsInOrder(), f), CreatedKey);
      Paging.PageHolds(sorted, limit, i);
    }

    lemma {:induction false} DistinctCard()
      requires Valid()
      ensures |order| == |jobs|
    {
      Seqs.SeqSetCard(order);
      assert (set k | k in order) == jobs.Keys;
    }
  }
}
