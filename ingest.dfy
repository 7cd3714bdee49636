/**
 * The ingestion endpoints: validation of a request body against the request
 * model's field patterns, the guard that something is given to ingest, the
 * priority map, the `job_data` payload, the enqueue-or-fallback decision and
 * the batch endpoint's cap and loop.
 */
module Ingest {
  import opened Wrappers
  import Payload

  const BadRequest: int := 400
  const Unprocessable: int := 422
  const Unavailable: int := 503
  /** The most requests one batch may carry. */
  const MaxBatch: nat := 100

  /**
   * A request body as sent. A required field and an optional one behave the
   * same whether missing or null; `mode` and `priority` have defaults but are
   * typed `str`, so for them a null differs from a missing key.
   */
  datatype RawRequest = RawRequest(
    sourceType: Option<string>,
    items: Option<seq<Payload.IngestItem>>,
    accounts: Option<seq<string>>,
    keywords: Option<seq<string>>,
    dateRange: Option<Payload.DateRange>,
    mode: Payload.Field<string>,
    tenant: Option<string>,
    priority: Payload.Field<string>)

  /**
   * The `HttpUrl` type of an item's `url`: the normalised URL, or None when
   * the string is not an http(s) URL.
   */
  type UrlParser = string -> Option<string>

  /** An item's URL is absent or an http(s) URL. */
  predicate UrlOk(it: Payload.IngestItem, httpUrl: UrlParser)
  {
    it.url.None? || httpUrl(it.url.value).Some?
  }

  /** Every submitted item's URL is absent or valid. */
  predicate UrlsOk(items: Option<seq<Payload.IngestItem>>, httpUrl: UrlParser)
  {
    items.Some? ==> forall i :: 0 <= i < |items.value| ==> UrlOk(items.value[i], httpUrl)
  }

  /** The item as the request model holds it: its URL normalised. */
  function NormalizedItem(it: Payload.IngestItem, httpUrl: UrlParser): (r: Payload.IngestItem)
    requires UrlOk(it, httpUrl)
    ensures r.url.None? <==> it.url.None?
    ensures it.url.Some? ==> r.url == httpUrl(it.url.value)
    ensures r.(url := it.url) == it
  {
    if it.url.None? then it else it.(url := httpUrl(it.url.value))
  }

  /** The items as the request model holds them. */
  function NormalizedItems(items: Option<seq<Payload.IngestItem>>, httpUrl: UrlParser): (r: Option<seq<Payload.IngestItem>>)
    requires UrlsOk(items, httpUrl)
    ensures r.None? <==> items.None?
    ensures items.Some? ==> (|r.value| == |items.value| &&
      forall i :: 0 <= i < |items.value| ==> r.value[i] == NormalizedItem(items.value[i], httpUrl))
  {
    if items.None? then None
    else Some(seq(|items.value|, i requires 0 <= i < |items.value| => NormalizedItem(items.value[i], httpUrl)))
  }

  /** A request the request model accepted, defaults filled in. */
  datatype IngestRequest = IngestRequest(
    sourceType: string,
    items: Option<seq<Payload.IngestItem>>,
    accounts: Option<seq<string>>,
    keywords: Option<seq<string>>,
    dateRange: Option<Payload.DateRange>,
    mode: string,
    tenant: string,
    priority: string)

  datatype IngestResponse = IngestResponse(jobId: string, acceptedAt: int, status: string, message: string)

  /** Where a job went: onto the task queue with a numeric priority, or to an in-process background task. */
  datatype Dispatch =
    | Enqueued(data: Payload.JobData, taskId: string, priority: nat)
    | Background(data: Payload.JobData)

  predicate SourceTypeOk(s: string) { s == "meta_api" || s == "youtube_api" || s == "scraped" }
  predicate ModeOk(m: string) { m == "historical" || m == "realtime" || m == "scheduled" }
  predicate PriorityOk(p: string) { p == "low" || p == "normal" || p == "high" }

  /** The field patterns of the request model. */
  predicate WellFormed(req: IngestRequest)
  {
    SourceTypeOk(req.sourceType) && ModeOk(req.mode) && PriorityOk(req.priority)
  }

  /**
   * Request-model validation: `source_type` and `tenant` are required, the
   * former with its pattern; `mode` and `priority` default to "realtime" and
   * "normal" when missing, must not be null and must match their patterns;
   * every item's URL must be an http(s) URL, and is kept normalised. Any
   * violation is 422.
   */
  function Validate(raw: RawRequest, httpUrl: UrlParser): (r: Result<IngestRequest, int>)
    ensures r.Ok? <==>
      raw.sourceType.Some? && SourceTypeOk(raw.sourceType.value) && raw.tenant.Some? &&
      (raw.mode.Absent? || (raw.mode.Present? && ModeOk(raw.mode.value))) &&
      (raw.priority.Absent? || (raw.priority.Present? && PriorityOk(raw.priority.value))) &&
      UrlsOk(raw.items, httpUrl)
    ensures r.Err? ==> r.error == Unprocessable
    ensures r.Ok? ==> WellFormed(r.value)
    ensures r.Ok? ==> (Some(r.value.mode) == Payload.Get(raw.mode, "realtime") &&
      Some(r.value.priority) == Payload.Get(raw.priority, "normal"))
    ensures r.Ok? ==> r.value.sourceType == raw.sourceType.value && r.value.tenant == raw.tenant.value
    ensures r.Ok? ==> (r.value.items == NormalizedItems(raw.items, httpUrl) && r.value.accounts == raw.accounts &&
      r.value.keywords == raw.keywords && r.value.dateRange == raw.dateRange)
  {
    var mode := Payload.Get(raw.mode, "realtime");
    var priority := Payload.Get(raw.priority, "normal");
    if raw.sourceType.None? || !SourceTypeOk(raw.sourceType.value) || raw.tenant.None? ||
       mode.None? || !ModeOk(mode.value) || priority.None? || !PriorityOk(priority.value) || !UrlsOk(raw.items, httpUrl) then
      Err(Unprocessable)
    else
      Ok(IngestRequest(raw.sourceType.value, NormalizedItems(raw.items, httpUrl), raw.accounts, raw.keywords, raw.dateRange,
                       mode.value, raw.tenant.value, priority.value))
  }

  /** The body that sends every field of an accepted request explicitly. */
  function AsRaw(req: IngestRequest): RawRequest
  {
    RawRequest(Some(req.sourceType), req.items, req.accounts, req.keywords, req.dateRange,
               Payload.Present(req.mode), Some(req.tenant), Payload.Present(req.priority))
  }

  /** Every item's URL is absent or already in the normal form the parser gives. */
  predicate UrlsNormal(items: Option<seq<Payload.IngestItem>>, httpUrl: UrlParser)
  {
    items.Some? ==> forall i :: 0 <= i < |items.value| ==>
      (items.value[i].url.Some? ==> httpUrl(items.value[i].url.value) == items.value[i].url)
  }

  /**
   * Validation accepts exactly the well-formed requests sent in full whose
   * URLs parse, and gives back unchanged those whose URLs are already normal.
   */
  lemma ValidateRoundTrip(req: IngestRequest, httpUrl: UrlParser)
    ensures Validate(AsRaw(req), httpUrl).Ok? <==> WellFormed(req) && UrlsOk(req.items, httpUrl)
    ensures WellFormed(req) && UrlsNormal(req.items, httpUrl) ==> Validate(AsRaw(req), httpUrl) == Ok(req)
  {
    if WellFormed(req) && UrlsNormal(req.items, httpUrl) {
      assert UrlsOk(req.items, httpUrl);
      if req.items.Some? {
        var its := req.items.value;
        assert NormalizedItems(req.items, httpUrl).value == its;
      }
    }
  }

  /** Leaving out `mode` and `priority` is the same as sending "realtime" and "normal". */
  lemma ValidateDefaults(raw: RawRequest, httpUrl: UrlParser)
    requires raw.mode.Absent? && raw.priority.Absent?
    ensures Validate(raw, httpUrl) == Validate(raw.(mode := Payload.Present("realtime"), priority := Payload.Present("normal")), httpUrl)
  {
  }

  /** An explicit null `mode` or `priority`, or an item URL that is not an http(s) URL, is refused with 422. */
  lemma ValidateRefuses(raw: RawRequest, httpUrl: UrlParser)
    requires raw.mode.Null? || raw.priority.Null? ||
      (raw.items.Some? && exists i :: 0 <= i < |raw.items.value| && !UrlOk(raw.items.value[i], httpUrl))
    ensures Validate(raw, httpUrl) == Err(Unprocessable)
  {
  }

  /** Python truthiness of an optional list: None and [] are both false. */
  predicate NonEmpty<T>(o: Option<seq<T>>) { o.Some? && o.value != [] }

  /** There is something to ingest: items, accounts or keywords. */
  predicate HasWork(req: IngestRequest)
  {
    NonEmpty(req.items) || NonEmpty(req.accounts) || NonEmpty(req.keywords)
  }

  /** `priority_map.get(priority, 5)`. */
  function PriorityValue(p: string): (v: nat)
    ensures p == "low" ==> v == 1
    ensures p == "normal" ==> v == 5
    ensures p == "high" ==> v == 10
    ensures !PriorityOk(p) ==> v == 5
  {
    if p == "low" then 1 else if p == "high" then 10 else 5
  }

  /** The job payload: request fields copied, an empty item list sent as None. */
  function JobDataOf(req: IngestRequest, jobId: string, acceptedAt: int): (d: Payload.JobData)
    ensures d.jobId == jobId && d.acceptedAt == acceptedAt
    ensures d.items.Some? <==> NonEmpty(req.items)
  {
    Payload.JobData(jobId, req.sourceType, if NonEmpty(req.items) then req.items else None,
      req.accounts, req.keywords, req.dateRange, req.mode, req.tenant, req.priority, acceptedAt)
  }

  /** The request a worker reads back out of a payload. */
  function RequestOf(d: Payload.JobData): IngestRequest
  {
    IngestRequest(d.sourceType, d.items, d.accounts, d.keywords, d.dateRange, d.mode, d.tenant, d.priority)
  }

  /** The payload carries the whole request, except that an empty item list arrives as None. */
  lemma JobDataRoundTrip(req: IngestRequest, jobId: string, acceptedAt: int)
    ensures RequestOf(JobDataOf(req, jobId, acceptedAt)) == req <==> req.items != Some([])
    ensures req.items == Some([]) ==> RequestOf(JobDataOf(req, jobId, acceptedAt)) == req.(items := None)
  {
  }

  /**
   * `submit_ingestion_job` after validation: 400 when there is nothing to
   * ingest; otherwise the job is enqueued under its own id as task id, and
   * when enqueueing fails it runs as a background task in debug mode and is
   * refused with 503 otherwise.
   */
  function Submit(req: IngestRequest, jobId: string, acceptedAt: int, enqueued: bool, debug: bool): (r: Result<(IngestResponse, Dispatch), int>)
    ensures r.Err? <==> !HasWork(req) || (!enqueued && !debug)
    ensures !HasWork(req) ==> r == Err(BadRequest)
    ensures HasWork(req) && !enqueued && !debug ==> r == Err(Unavailable)
    ensures r.Ok? ==> r.value.0.jobId == jobId && r.value.0.acceptedAt == acceptedAt && r.value.0.status == "queued"
    ensures r.Ok? ==> r.value.0.message == "Ingestion job queued with priority: " + req.priority
    ensures r.Ok? ==> r.value.1.data == JobDataOf(req, jobId, acceptedAt) && (r.value.1.Enqueued? <==> enqueued)
    ensures r.Ok? && enqueued ==> r.value.1.taskId == jobId && r.value.1.priority == PriorityValue(req.priority)
  {
    if !HasWork(req) then Err(BadRequest)
    else
      var data := JobDataOf(req, jobId, acceptedAt);
      var response := IngestResponse(jobId, acceptedAt, "queued", "Ingestion job queued with priority: " + req.priority);
      if enqueued then Ok((response, Enqueued(data, jobId, PriorityValue(req.priority))))
      else if debug then Ok((response, Background(data)))
      else Err(Unavailable)
  }

  /**
   * What the world supplies to a batch: the fresh job id and whether the
   * enqueue succeeds for the request at each position, the clock, the
   * debug setting and the URL type of the request model.
   */
  datatype Env = Env(jobIds: nat -> string, acceptedAt: int, enqueued: nat -> bool, debug: bool, httpUrl: UrlParser)

  /** What submitting one request gives: a response and a dispatched job, or an HTTP status. */
  type Submission = Result<(IngestResponse, Dispatch), int>

  /** The submission of each request of a batch, by position. */
  function Submissions(reqs: seq<IngestRequest>, env: Env): (outs: seq<Submission>)
    ensures |outs| == |reqs|
  {
    seq(|reqs|, i requires 0 <= i < |reqs| => Submit(reqs[i], env.jobIds(i), env.acceptedAt, env.enqueued(i), env.debug))
  }

  lemma SubmissionsAt(reqs: seq<IngestRequest>, env: Env, i: nat)
    requires i < |reqs|
    ensures Submissions(reqs, env)[i] == Submit(reqs[i], env.jobIds(i), env.acceptedAt, env.enqueued(i), env.debug)
  {
  }

  /** The responses gathered and the jobs dispatched so far, and the status of the error that stopped the batch. */
  datatype BatchOutcome = BatchOutcome(responses: seq<IngestResponse>, dispatched: seq<Dispatch>, error: Option<int>)

  /**
   * The batch loop over the first `n` submissions: each one is taken in
   * turn, and the first error ends the batch with the jobs before it
   * already dispatched.
   */
  function BatchPrefix(outs: seq<Submission>, n: nat): BatchOutcome
    requires n <= |outs|
  {
    if n == 0 then BatchOutcome([], [], None)
    else
      var p := BatchPrefix(outs, n - 1);
      if p.error.Some? then p
      else
        match outs[n - 1]
        case Err(e) => p.(error := Some(e))
        case Ok(rd) => BatchOutcome(p.responses + [rd.0], p.dispatched + [rd.1], None)
  }

  /** The submission at `k` is the first one refused. */
  ghost predicate FailsFirstAt(outs: seq<Submission>, k: nat)
    requires k < |outs|
  {
    outs[k].Err? && forall i :: 0 <= i < k ==> outs[i].Ok?
  }

  /** The batch stopped at `k`, the first request refused, with the jobs before it dispatched. */
  ghost predicate StoppedAt(outs: seq<Submission>, k: nat, r: BatchOutcome)
    requires k < |outs|
  {
    FailsFirstAt(outs, k) && r.error == Some(outs[k].error) && |r.dispatched| == k &&
    forall i :: 0 <= i < k ==> r.dispatched[i] == outs[i].value.1
  }

  /**
   * A batch that did not stop has one response and one dispatched job per
   * request, each the request's own; one that stopped did so at the first
   * refused request, with exactly the jobs before it dispatched.
   */
  lemma {:induction false} BatchPrefixMeaning(outs: seq<Submission>, n: nat)
    requires n <= |outs|
    ensures var r := BatchPrefix(outs, n);
      r.error.None? ==> (|r.responses| == |r.dispatched| == n &&
        forall i :: 0 <= i < n ==> outs[i] == Ok((r.responses[i], r.dispatched[i])))
    ensures var r := BatchPrefix(outs, n);
      r.error.Some? ==> exists k :: 0 <= k < n && StoppedAt(outs, k, r)
  {
    if n > 0 {
      BatchPrefixMeaning(outs, n - 1);
      var p := BatchPrefix(outs, n - 1);
      if p.error.None? && outs[n - 1].Err? {
        assert StoppedAt(outs, n - 1, BatchPrefix(outs, n));
      }
    }
  }

  /** One more submission either extends the batch or stops it. */
  lemma BatchPrefixStep(outs: seq<Submission>, k: nat)
    requires k < |outs| && BatchPrefix(outs, k).error.None?
    ensures outs[k].Err? ==> BatchPrefix(outs, k + 1) == BatchPrefix(outs, k).(error := Some(outs[k].error))
    ensures outs[k].Ok? ==> (BatchPrefix(outs, k + 1) ==
      BatchOutcome(BatchPrefix(outs, k).responses + [outs[k].value.0], BatchPrefix(outs, k).dispatched + [outs[k].value.1], None))
  {
  }

  /** Once the batch has stopped, later requests change nothing. */
  lemma {:induction false} BatchPrefixStops(outs: seq<Submission>, k: nat, n: nat)
    requires k <= n <= |outs| && BatchPrefix(outs, k).error.Some?
    ensures BatchPrefix(outs, n) == BatchPrefix(outs, k)
    decreases n
  {
    if n > k {
      BatchPrefixStops(outs, k, n - 1);
    }
  }

  /** `submit_batch_ingestion`: more than 100 requests are refused with 400 before any submission. */
  function Batch(reqs: seq<IngestRequest>, env: Env): (r: BatchOutcome)
    ensures |reqs| > MaxBatch ==> r == BatchOutcome([], [], Some(BadRequest))
    ensures |reqs| <= MaxBatch ==> r == BatchPrefix(Submissions(reqs, env), |reqs|)
  {
    if |reqs| > MaxBatch then BatchOutcome([], [], Some(BadRequest)) else BatchPrefix(Submissions(reqs, env), |reqs|)
  }

  /** A batch whose every request is accepted answers one response per request, in order. */
  lemma BatchAllAccepted(reqs: seq<IngestRequest>, env: Env)
    requires |reqs| <= MaxBatch
    requires forall i :: 0 <= i < |reqs| ==> Submit(reqs[i], env.jobIds(i), env.acceptedAt, env.enqueued(i), env.debug).Ok?
    ensures Batch(reqs, env).error.None?
    ensures |Batch(reqs, env).responses| == |reqs|
    ensures forall i :: 0 <= i < |reqs| ==>
      Batch(reqs, env).responses[i] == Submit(reqs[i], env.jobIds(i), env.acceptedAt, env.enqueued(i), env.debug).value.0
  {
    var outs := Submissions(reqs, env);
    forall i | 0 <= i < |reqs| ensures outs[i] == Submit(reqs[i], env.jobIds(i), env.acceptedAt, env.enqueued(i), env.debug) {
      SubmissionsAt(reqs, env, i);
    }
    BatchPrefixMeaning(outs, |reqs|);
  }

  /** A request with nothing to ingest refuses the batch with 400, and no later request is submitted. */
  lemma BatchStopsAtEmpty(reqs: seq<IngestRequest>, env: Env, k: nat)
    requires |reqs| <= MaxBatch && k < |reqs| && !HasWork(reqs[k])
    ensures Batch(reqs, env).error.Some? && |Batch(reqs, env).dispatched| <= k
  {
    var outs := Submissions(reqs, env);
    SubmissionsAt(reqs, env, k);
    BatchPrefixMeaning(outs, |reqs|);
  }

  /**
   * The batch endpoint: the body is validated as a whole first, so a single
   * invalid request refuses the batch with 422; then the cap; then the
   * submissions, whose first error is the endpoint's answer.
   */
  method SubmitBatch(raws: seq<RawRequest>, env: Env) returns (r: Result<seq<IngestResponse>, int>, dispatched: seq<Dispatch>)
    ensures (exists i :: 0 <= i < |raws| && Validate(raws[i], env.httpUrl).Err?) ==> r == Err(Unprocessable) && dispatched == []
    ensures (forall i :: 0 <= i < |raws| ==> Validate(raws[i], env.httpUrl).Ok?) ==>
      var b := Batch(Validated(raws, env.httpUrl), env);
      dispatched == b.dispatched && r == (if b.error.Some? then Err(b.error.value) else Ok(b.responses))
  {
    var v := ValidateAll(raws, env.httpUrl);
    if v.Err? {
      return Err(Unprocessable), [];
    }
    if |v.value| > MaxBatch {
      return Err(BadRequest), [];
    }
    r, dispatched := SubmitAll(v.value, env);
  }

  /** Validation of the whole body, element by element. */
  method ValidateAll(raws: seq<RawRequest>, httpUrl: UrlParser) returns (r: Result<seq<IngestRequest>, int>)
    ensures r.Err? <==> exists i :: 0 <= i < |raws| && Validate(raws[i], httpUrl).Err?
    ensures r.Ok? ==> r.value == Validated(raws, httpUrl)
  {
    var reqs: seq<IngestRequest> := [];
    var j := 0;
    while j < |raws|
      invariant 0 <= j <= |raws| && |reqs| == j
      invariant forall i :: 0 <= i < j ==> Validate(raws[i], httpUrl).Ok? && reqs[i] == Validate(raws[i], httpUrl).value
    {
      var v := Validate(raws[j], httpUrl);
      if v.Err? {
        return Err(Unprocessable);
      }
      reqs := reqs + [v.value];
      j := j + 1;
    }
    r := Ok(reqs);
  }

  /** The submission loop of the batch endpoint. */
  method SubmitAll(reqs: seq<IngestRequest>, env: Env) returns (r: Result<seq<IngestResponse>, int>, dispatched: seq<Dispatch>)
    ensures var b := BatchPrefix(Submissions(reqs, env), |reqs|);
      dispatched == b.dispatched && r == (if b.error.Some? then Err(b.error.value) else Ok(b.responses))
  {
    ghost var outs := Submissions(reqs, env);
    var responses: seq<IngestResponse> := [];
    dispatched := [];
    var k := 0;
    while k < |reqs|
      invariant 0 <= k <= |reqs|
      invariant BatchPrefix(outs, k) == BatchOutcome(responses, dispatched, None)
    {
      var s := Submit(reqs[k], env.jobIds(k), env.acceptedAt, env.enqueued(k), env.debug);
      SubmissionsAt(reqs, env, k);
      BatchPrefixStep(outs, k);
      if s.Err? {
        BatchPrefixStops(outs, k + 1, |reqs|);
        return Err(s.error), dispatched;
      }
      responses := responses + [s.value.0];
      dispatched := dispatched + [s.value.1];
      k := k + 1;
    }
    r := Ok(responses);
  }

  /** The validated form of a body every request of which is valid. */
  function Validated(raws: seq<RawRequest>, httpUrl: UrlParser): (reqs: seq<IngestRequest>)
    requires forall i :: 0 <= i < |raws| ==> Validate(raws[i], httpUrl).Ok?
    ensures |reqs| == |raws| && forall i :: 0 <= i < |raws| ==> reqs[i] == Validate(raws[i], httpUrl).value
  {
    seq(|raws|, i requires 0 <= i < |raws| => Validate(raws[i], httpUrl).value)
  }
}
