/**
 * The in-memory fallback of the database service: a job dictionary (kept in
 * insertion order, as Python dictionaries are) and a per-job insight list.
 * The PostgreSQL paths are not modelled; this is the store used whenever no
 * connection pool is available.
 */
module DbService {
  import opened Wrappers
  import Payload
  import Sorting
  import Paging
  import opened Seqs

  datatype DbJob = DbJob(
    id: string,
    tenant: string,
    sourceType: string,
    status: string,
    mode: string,
    priority: string,
    accounts: seq<string>,
    keywords: seq<string>,
    dateRange: Option<Payload.DateRange>,
    itemsTotal: int,
    itemsProcessed: int,
    progressPercent: int,
    createdAt: int,
    updatedAt: int,
    errorMessage: Option<string>,
    processingTimeMs: Option<int>,
    startedAt: Option<int>,
    completedAt: Option<int>)

  /** The job record `create_job` builds. */
  function NewJob(jobId: string, tenant: string, sourceType: string, mode: string, priority: string,
                  accounts: Option<seq<string>>, keywords: Option<seq<string>>,
                  dateRange: Option<Payload.DateRange>, now: int): (j: DbJob)
    ensures j.id == jobId && j.tenant == tenant && j.sourceType == sourceType && j.mode == mode && j.priority == priority
    ensures j.status == "pending" && j.itemsTotal == 0 && j.itemsProcessed == 0 && j.progressPercent == 0
    ensures j.accounts == (if accounts.Some? then accounts.value else [])
    ensures j.keywords == (if keywords.Some? then keywords.value else [])
    ensures j.dateRange == dateRange && j.createdAt == now && j.updatedAt == now
    ensures j.errorMessage.None? && j.processingTimeMs.None? && j.startedAt.None? && j.completedAt.None?
  {
    DbJob(jobId, tenant, sourceType, "pending", mode, priority,
          GetOr(accounts, []), GetOr(keywords, []), dateRange, 0, 0, 0, now, now, None, None, None, None)
  }

  predicate IsTerminal(status: string) { status == "completed" || status == "failed" }

  /** The updates dictionary of `update_job_status` applied to a job. */
  function Updated(j: DbJob, status: string, progress: Option<int>, itemsTotal: Option<int>,
                   itemsProcessed: Option<int>, errorMessage: Option<string>,
                   processingTimeMs: Option<int>, now: int): (r: DbJob)
    ensures r.status == status && r.updatedAt == now
    ensures r.progressPercent == GetOr(progress, j.progressPercent)
    ensures r.itemsTotal == GetOr(itemsTotal, j.itemsTotal)
    ensures r.itemsProcessed == GetOr(itemsProcessed, j.itemsProcessed)
    ensures r.errorMessage == (if errorMessage.Some? then errorMessage else j.errorMessage)
    ensures r.processingTimeMs == (if processingTimeMs.Some? then processingTimeMs else j.processingTimeMs)
    ensures r.startedAt == (if status == "ingesting" then Some(now) else j.startedAt)
    ensures r.completedAt == (if IsTerminal(status) then Some(now) else j.completedAt)
    ensures r.id == j.id && r.tenant == j.tenant && r.createdAt == j.createdAt && r.sourceType == j.sourceType
    ensures r.accounts == j.accounts && r.keywords == j.keywords && r.mode == j.mode && r.priority == j.priority
  {
    j.(status := status, updatedAt := now,
       progressPercent := GetOr(progress, j.progressPercent),
       itemsTotal := GetOr(itemsTotal, j.itemsTotal),
       itemsProcessed := GetOr(itemsProcessed, j.itemsProcessed),
       errorMessage := if errorMessage.Some? then errorMessage else j.errorMessage,
       processingTimeMs := if processingTimeMs.Some? then processingTimeMs else j.processingTimeMs,
       startedAt := if status == "ingesting" then Some(now) else j.startedAt,
       completedAt := if IsTerminal(status) then Some(now) else j.completedAt)
  }

  /** A filter argument is active only when given and non-empty. */
  predicate Active(f: Option<string>) { f.Some? && f.value != "" }

  predicate JobMatches(j: DbJob, tenant: Option<string>, status: Option<string>)
  {
    (!Active(tenant) || j.tenant == tenant.value) && (!Active(status) || j.status == status.value)
  }

  function FilterJobs(js: seq<DbJob>, tenant: Option<string>, status: Option<string>): seq<DbJob>
  {
    if js == [] then []
    else (if JobMatches(js[0], tenant, status) then [js[0]] else []) + FilterJobs(js[1..], tenant, status)
  }

  /** The filtered list holds exactly the matching jobs of the input, and is no longer. */
  lemma {:induction false} FilterJobsMembers(js: seq<DbJob>, tenant: Option<string>, status: Option<string>)
    ensures |FilterJobs(js, tenant, status)| <= |js|
    ensures forall j :: j in FilterJobs(js, tenant, status) <==> j in js && JobMatches(j, tenant, status)
  {
    if js != [] {
      FilterJobsMembers(js[1..], tenant, status);
      assert js == [js[0]] + js[1..];
    }
  }

  function CreatedKey(j: DbJob): real { j.createdAt as real }

  /** Jobs surviving a cleanup with this cutoff: newer than it, or not yet finished. */
  predicate Survives(j: DbJob, cutoff: int) { j.createdAt > cutoff || !IsTerminal(j.status) }

  function KeepSurvivors(order: seq<string>, jobs: map<string, DbJob>, cutoff: int): seq<string>
    requires forall k :: k in order ==> k in jobs
  {
    if order == [] then []
    else (if Survives(jobs[order[0]], cutoff) then [order[0]] else []) + KeepSurvivors(order[1..], jobs, cutoff)
  }

  /** The rebuilt order holds exactly the surviving ids of the old one, and is no longer. */
  lemma {:induction false} KeepSurvivorsMembers(order: seq<string>, jobs: map<string, DbJob>, cutoff: int)
    requires forall k :: k in order ==> k in jobs
    ensures forall k :: k in KeepSurvivors(order, jobs, cutoff) <==> k in order && Survives(jobs[k], cutoff)
    ensures |KeepSurvivors(order, jobs, cutoff)| <= |order|
    decreases |order|
  {
    if order != [] {
      KeepSurvivorsMembers(order[1..], jobs, cutoff);
    }
  }

  function Lookup(keys: seq<string>, m: map<string, DbJob>): (r: seq<DbJob>)
    requires forall k :: k in keys ==> k in m
    ensures |r| == |keys| && forall i :: 0 <= i < |keys| ==> r[i] == m[keys[i]]
  {
    if keys == [] then [] else [m[keys[0]]] + Lookup(keys[1..], m)
  }

  /** The job dictionary a cleanup with this cutoff rebuilds. */
  function Survivors(jobs: map<string, DbJob>, cutoff: int): map<string, DbJob>
  {
    map k | k in jobs && Survives(jobs[k], cutoff) :: jobs[k]
  }

  /** The ids a cleanup with this cutoff removes. */
  function Removed(jobs: map<string, DbJob>, cutoff: int): set<string>
  {
    set k | k in jobs && !Survives(jobs[k], cutoff)
  }

  /** The number of jobs a cleanup removes is the size of the removed set. */
  lemma CleanupCount(jobs: map<string, DbJob>, cutoff: int)
    ensures |jobs| - |Survivors(jobs, cutoff)| == |Removed(jobs, cutoff)|
  {
    assert Survivors(jobs, cutoff).Keys == jobs.Keys - Removed(jobs, cutoff);
    SetCardDiff(jobs.Keys, Removed(jobs, cutoff));
  }

  lemma {:induction false} FilterDistinct(order: seq<string>, jobs: map<string, DbJob>, cutoff: int)
    requires forall k :: k in order ==> k in jobs
    requires Distinct(order)
    ensures Distinct(KeepSurvivors(order, jobs, cutoff))
    decreases |order|
  {
    if order != [] {
      FilterDistinct(order[1..], jobs, cutoff);
      KeepSurvivorsMembers(order[1..], jobs, cutoff);
      var rest := KeepSurvivors(order[1..], jobs, cutoff);
      assert order[0] !in order[1..];
      assert order[0] !in rest;
    }
  }

  lemma {:induction false} SetCardDiff(a: set<string>, b: set<string>)
    requires b <= a
    ensures |a - b| == |a| - |b|
    decreases |b|
  {
    if b != {} {
      var x :| x in b;
      SetCardDiff(a - {x}, b - {x});
      assert a - b == (a - {x}) - (b - {x});
    }
  }

  class DatabaseService<Insight> {
    var jobs: map<string, DbJob>
    /** The keys of `jobs` in insertion order. */
    var order: seq<string>
    var insights: map<string, seq<Insight>>

    ghost predicate Valid()
      reads this
    {
      Distinct(order) && (forall k :: k in order <==> k in jobs)
    }

    constructor ()
      ensures Valid() && jobs == map[] && order == [] && insights == map[]
    {
      jobs, order, insights := map[], [], map[];
    }

    /** `list(self._jobs.values())`. */
    function JobsInOrder(): (js: seq<DbJob>)
      reads this
      requires Valid()
      ensures |js| == |order| && forall i :: 0 <= i < |order| ==> js[i] == jobs[order[i]]
    {
      Lookup(order, jobs)
    }

    method CreateJob(jobId: string, tenant: string, sourceType: string, mode: string, priority: string,
                     accounts: Option<seq<string>>, keywords: Option<seq<string>>,
                     dateRange: Option<Payload.DateRange>, now: int) returns (job: DbJob)
      requires Valid()
      modifies this
      ensures Valid()
      ensures job == NewJob(jobId, tenant, sourceType, mode, priority, accounts, keywords, dateRange, now)
      ensures jobs == old(jobs)[jobId := job] && insights == old(insights)
      ensures order == if jobId in old(jobs) then old(order) else old(order) + [jobId]
    {
      job := NewJob(jobId, tenant, sourceType, mode, priority, accounts, keywords, dateRange, now);
      if jobId !in jobs {
        order := order + [jobId];
      }
      jobs := jobs[jobId := job];
    }

    function GetJob(jobId: string): (r: Option<DbJob>)
      reads this
      ensures r.Some? <==> jobId in jobs
      ensures r.Some? ==> r.value == jobs[jobId]
    {
      if jobId in jobs then Some(jobs[jobId]) else None
    }

    /** `update_job_status`: False and no change for an unknown id. */
    method UpdateJobStatus(jobId: string, status: string, progress: Option<int>, itemsTotal: Option<int>,
                           itemsProcessed: Option<int>, errorMessage: Option<string>,
                           processingTimeMs: Option<int>, now: int) returns (found: bool)
      requires Valid()
      modifies this
      ensures Valid() && order == old(order) && insights == old(insights)
      ensures found <==> jobId in old(jobs)
      ensures !found ==> jobs == old(jobs)
      ensures found ==> jobs == old(jobs)[jobId := Updated(old(jobs)[jobId], status, progress, itemsTotal,
                                                           itemsProcessed, errorMessage, processingTimeMs, now)]
    {
      found := jobId in jobs;
      if found {
        jobs := jobs[jobId := Updated(jobs[jobId], status, progress, itemsTotal, itemsProcessed,
                                      errorMessage, processingTimeMs, now)];
      }
    }

    /** `list_jobs`: the page and the number of matching jobs. */
    function ListJobs(tenant: Option<string>, status: Option<string>, limit: nat, offset: nat): (r: (seq<DbJob>, nat))
      reads this
      requires Valid()
      ensures r.1 == |FilterJobs(JobsInOrder(), tenant, status)|
      ensures r.0 == Paging.Slice(Sorting.SortDesc(FilterJobs(JobsInOrder(), tenant, status), CreatedKey), offset, offset + limit)
    {
      var matching := FilterJobs(JobsInOrder(), tenant, status);
      (Paging.Slice(Sorting.SortDesc(matching, CreatedKey), offset, offset + limit), |matching|)
    }

    /**
     * `cleanup_old_jobs`: drops finished jobs not newer than `now` minus the
     * age, then every insight list whose job is gone. Without an age the
     * source reads a setting the settings class does not declare, which
     * raises; that is the error result.
     */
    method CleanupOldJobs(maxAgeHours: Option<int>, now: int) returns (r: Result<nat, string>)
      requires Valid()
      modifies this
      ensures Valid()
      ensures maxAgeHours.None? ==> r.Err? && jobs == old(jobs) && order == old(order) && insights == old(insights)
      ensures maxAgeHours.Some? ==> r.Ok? && CleanedUp(old(jobs), old(order), old(insights), now - maxAgeHours.value * 3600, r.value)
    {
      if maxAgeHours.None? {
        return Err("AttributeError: job_ttl_hours");
      }
      var cutoff := now - maxAgeHours.value * 3600;
      var n := CleanupBefore(cutoff);
      r := Ok(n);
    }

    /**
     * The state after a cleanup with this cutoff: the surviving jobs in their
     * old order, the insights of removed jobs dropped, and `n` the number of
     * jobs removed.
     */
    ghost predicate CleanedUp(oldJobs: map<string, DbJob>, oldOrder: seq<string>, oldInsights: map<string, seq<Insight>>, cutoff: int, n: int)
      reads this
      requires forall k :: k in oldOrder ==> k in oldJobs
    {
      jobs == Survivors(oldJobs, cutoff) && order == KeepSurvivors(oldOrder, oldJobs, cutoff) &&
      insights == (map k | k in oldInsights && k in jobs :: oldInsights[k]) &&
      n == |oldJobs| - |jobs| == |Removed(oldJobs, cutoff)|
    }

    /** The loop of `cleanup_old_jobs` for a given cutoff: removes the terminal jobs created at or before it. */
    method CleanupBefore(cutoff: int) returns (n: nat)
      requires Valid()
      modifies this
      ensures Valid()
      ensures CleanedUp(old(jobs), old(order), old(insights), cutoff, n)
    {
      var oldCount := |jobs|;
      CleanupCount(jobs, cutoff);
      FilterDistinct(order, jobs, cutoff);
      var kept := KeepSurvivors(order, jobs, cutoff);
      var survivors := Survivors(jobs, cutoff);
      KeepSurvivorsMembers(order, jobs, cutoff);
      assert forall k :: k in kept <==> k in survivors;
      order, jobs := kept, survivors;
      insights := map k | k in insights && k in survivors :: insights[k];
      n := oldCount - |survivors|;
    }

    /** `store_insights_batch`: extends the job's list, creating it on first use. */
    method StoreInsightsBatch(jobId: string, batch: seq<Insight>) returns (ok: bool)
      modifies this
      ensures ok && jobs == old(jobs) && order == old(order)
      ensures insights == old(insights)[jobId := (if jobId in old(insights) then old(insights)[jobId] else []) + batch]
    {
      if jobId !in insights {
        insights := insights[jobId := []];
      }
      insights := insights[jobId := insights[jobId] + batch];
      ok := true;
    }

    /** `store_insight`: appends to the job's list, creating it on first use. */
    method StoreInsight(jobId: string, insight: Insight) returns (ok: bool)
      modifies this
      ensures ok && jobs == old(jobs) && order == old(order)
      ensures insights == old(insights)[jobId := (if jobId in old(insights) then old(insights)[jobId] else []) + [insight]]
    {
      if jobId !in insights {
        insights := insights[jobId := []];
      }
      insights := insights[jobId := insights[jobId] + [insight]];
      ok := true;
    }

    /** `get_insights`: one slice of the job's list and the list's full length. */
    function GetInsights(jobId: string, limit: nat, offset: nat): (r: (seq<Insight>, nat))
      reads this
      ensures var all := if jobId in insights then insights[jobId] else [];
        r.1 == |all| && |r.0| <= limit &&
        (forall i :: 0 <= i < |r.0| ==> offset + i < |all| && r.0[i] == all[offset + i]) &&
        |r.0| == (if offset >= |all| then 0 else if offset + limit <= |all| then limit else |all| - offset)
    {
      var all := if jobId in insights then insights[jobId] else [];
      (Paging.Slice(all, offset, offset + limit), |all|)
    }

    // ------------------------------------------------------------ properties

    /** The page holds only matching jobs, newest first, and never more than `limit`. */
    lemma ListJobsSound(tenant: Option<string>, status: Option<string>, limit: nat, offset: nat)
      requires Valid()
      ensures var (page, total) := ListJobs(tenant, status, limit, offset);
        |page| <= limit && total <= |jobs| &&
        (forall j :: j in page ==> j in jobs.Values && JobMatches(j, tenant, status)) &&
        (forall a, b :: 0 <= a < b < |page| ==> page[a].createdAt >= page[b].createdAt)
    {
      var all := JobsInOrder();
      var matching := FilterJobs(all, tenant, status);
      var sorted := Sorting.SortDesc(matching, CreatedKey);
      var (page, total) := ListJobs(tenant, status, limit, offset);
      FilterJobsMembers(all, tenant, status);
      forall j | j in page ensures j in jobs.Values && JobMatches(j, tenant, status) {
        var i :| 0 <= i < |page| && page[i] == j;
        PageMember(all, matching, sorted, page, offset, limit, i, tenant, status);
      }
      forall a, b | 0 <= a < b < |page| ensures page[a].createdAt >= page[b].createdAt {
        assert page[a] == sorted[offset + a] && page[b] == sorted[offset + b];
      }
      assert |all| == |order|;
      assert |order| == |jobs| by {
        DistinctCard();
      }
    }

    lemma PageMember(all: seq<DbJob>, matching: seq<DbJob>, sorted: seq<DbJob>, page: seq<DbJob>,
                     offset: nat, limit: nat, i: nat, tenant: Option<string>, status: Option<string>)
      requires Valid()
      requires all == JobsInOrder()
      requires forall j :: j in matching <==> j in all && JobMatches(j, tenant, status)
      requires sorted == Sorting.SortDesc(matching, CreatedKey)
      requires page == Paging.Slice(sorted, offset, offset + limit)
      requires i < |page|
      ensures page[i] in jobs.Values && JobMatches(page[i], tenant, status)
    {
      var j := page[i];
      assert j == sorted[offset + i];
      assert j in multiset(sorted);
      assert j in matching;
      var k :| 0 <= k < |all| && all[k] == j;
      assert jobs[order[k]] == j;
    }

    lemma {:induction false} DistinctCard()
      requires Valid()
      ensures |order| == |jobs|
    {
      SeqSetCard(order);
      assert (set k | k in order) == jobs.Keys;
    }

  }
}
