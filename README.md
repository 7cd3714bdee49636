# Content-ingestion backend, modelled in Dafny

The system is a FastAPI and Celery backend. It accepts content-ingestion jobs for a tenant, either as items to import or as accounts to scrape. It then runs each item through NLP, OCR, deduplication and spam checks and stores one normalized insight per item. Progress is published to subscribers as server-sent events. Insights can be queried, filtered, paged, summarized, searched and archived.

Around the foreign engines (Redis, PostgreSQL, Celery, spaCy, VADER, langdetect, EasyOCR, Tesseract, OpenCV, S3, Meilisearch, httpx) sits a body of sequential logic. This project models that logic and proves properties of it.

Modules follow the program's files:

- `CircuitBreaker` (`backend/app/core/circuit_breaker.py`): the three-state breaker as a class, with its sliding failure window.
- `RateLimiter` (`backend/app/core/rate_limiter.py`): the per-tenant sliding-window limiter over a sorted set, kept as a map from member to score, plus the tiered and no-op limiters.
- `DbService` (`backend/app/db/service.py`): the in-memory job and insight store.
- `JobsRoute` (`backend/app/api/routes/jobs.py`): the route-level job registry, with listing, paging, status estimates and cancellation.
- `Tasks` (`backend/app/workers/tasks.py`): the ingestion task's stage and status sequence and its helpers.
- `Events` (`backend/app/api/routes/events.py`): the subscriber registry of FIFO queues and the server-sent-event frames.
- `Dedup` (`backend/app/services/dedup_service.py`): exact and near duplicate detection, SimHash and MinHash.
- `InsightsRoute` (`backend/app/api/routes/insights.py`): the insight store, filters, paging and summary.
- `Ingest` (`backend/app/api/routes/ingest.py`): intake validation, the priority map, the job data and the batch cap.
- `Deps` (`backend/app/api/deps.py`): API-key extraction and the tenant header.
- `Scheduled` (`backend/app/workers/scheduled.py`): the dead-letter review and the event-cleanup cutoff.
- `Nlp` (`backend/app/services/nlp_service.py`): the rules around the NLP engines.
- `SearchService` and `SearchRoute` (`backend/app/services/search_service.py`, `backend/app/api/routes/search.py`): document flattening, the filter string and the endpoint's filters.
- `Archive` (`backend/app/services/archive_service.py`): archive keys, retrieval, listing and the retention batch.
- `Ocr` (`backend/app/services/ocr_service.py`): aggregation of OCR results.
- `Scraper` (`backend/app/services/scraper_service.py`): platform detection, URL rules and per-domain rate bookkeeping.
- `ImagePreprocessing` (`backend/app/services/image_preprocessing.py`): the crop clamp, the resize rules, step ordering and the presets.
- `Config` (`backend/app/config.py`): the settings helpers.
- Shared leaf modules: `Wrappers` (Option and Result), `Text` (string helpers), `Seqs`, `Counting`, `Sorting`, `Paging`, `Numeric`, `Json` and `Payload` (the request and item records).

Foreign engines, hashes, the clock, identifiers and I/O become function-typed parameters or explicit arguments such as `now: int`. Each operation is atomic and sequential.

Code that updates objects in place becomes a class with `modifies` clauses. Loops become methods proved against specification functions. Pure code becomes functions with lemmas.

`debug` is a parameter. The configuration defaults it to true, which makes the authentication fallback return "development" when no key is given. A test in the repository expects a 401 in that case; the model follows the code: the fallback applies whenever `debug` is set.

The two job-status enumerations differ. The model uses the route's, which has `partial`.

## Definitions

Functions that model a source function directly and carry no contract of their own. The lemma rows below state what is proved about each.

- `Scraper.DetectPlatform`: `_detect_platform`, backend/app/services/scraper_service.py:179-199 (facts: `Scraper.FirstPlatformSpec`, `Scraper.TwitterProfilePlatform`).
- `Scraper.ScrapeOutcome`: `_scrape_url`, backend/app/services/scraper_service.py:81-154 (facts: `Scraper.ScrapeUrl`, `Scraper.PageRecord`).
- `InsightsRoute.SummaryOf`: the summary built by `get_insights_summary`, backend/app/api/routes/insights.py:238-316 (facts: `InsightsRoute.SummaryBounds`, `InsightsRoute.SummarySentiments`, `InsightsRoute.SummaryLanguages`, `InsightsRoute.SummaryTopTopics`).
- `Tasks.Pipeline`: `process_ingestion_job`, backend/app/workers/tasks.py:30-157 (facts: `Tasks.PipelineUpdates`, `Tasks.ProgressNeverDecreases`, `Tasks.FinalJobRecord`).
- `Tasks.Stages`: the stages after item collection, backend/app/workers/tasks.py:74-141 (facts: `Tasks.StagesUpdates`, `Tasks.RunStagesShape`).
- `Tasks.FailRun`: the `except` branch, backend/app/workers/tasks.py:143-157 (facts: `Tasks.FailureResetsProgress`).
- `Dedup.SimHashOf`: `compute_simhash`, backend/app/services/dedup_service.py:126-157 (facts: `Dedup.SimHashBits`, `Dedup.ComputeSimhash`).
- `Ocr.Aggregate`: the combined result of `extract_text`, backend/app/services/ocr_service.py:111-115 (facts: `Ocr.CollectedAggregate`, `Ocr.AggregateContains`, `Ocr.AggregateConfidence`).
- `Nlp.AnalyzeSpec`: `analyze`, backend/app/services/nlp_service.py:72-98 (facts: `Nlp.Analyze`, `Nlp.AnalyzeTopicsEmptyIffBlank`).
- `ImagePreprocessing.ResizeDims`: the size rule of `_resize_for_ocr`, backend/app/services/image_preprocessing.py:158-178 (facts: `ImagePreprocessing.ResizeUnchanged`, `ImagePreprocessing.ResizeDown`, `ImagePreprocessing.ResizeUp`).

## Model

| member | source | states |
|---|---|---|
| Config.DefaultSettings | backend/app/config.py:13-69 | the defaults of the settings the core reads: development mode with debug on, Redis at `redis://localhost:6379`, no Celery overrides, OCR languages "en", preprocessing on at "balanced", 60 requests a minute; the database URL has no default |
| Config.OcrLanguagesList | backend/app/config.py:57-59 | one entry per comma-separated piece of the setting, each stripped of surrounding whitespace and free of commas |
| Config.CeleryBroker | backend/app/config.py:76-79 | the broker URL when it is set and non-empty, otherwise the Redis URL |
| Config.CeleryBackend | backend/app/config.py:81-84 | the result-backend URL when it is set and non-empty, otherwise the Redis URL |
| Config.DefaultsShareRedis | backend/app/config.py:76-84 | with the defaults, broker and result backend are the same Redis URL, and the OCR language list is exactly `["en"]` |
| Deps.ExtractApiKey | backend/app/api/deps.py:28-34 | a non-empty `X-API-Key` wins; otherwise an `Authorization` header starting with "Bearer " gives the rest of the header after its 7-character prefix; otherwise there is no key |
| Deps.VerifyApiKey | backend/app/api/deps.py:17-57 | fails with 401 exactly when debug is off and there is no non-empty key; a non-empty key is returned as given; in debug mode a missing key gives "development" |
| Deps.CurrentTenant | backend/app/api/deps.py:60-73 | authentication failure propagates as 401; otherwise the `X-Tenant-ID` header when non-empty, else "default" |
| Deps.BearerRoundTrip | backend/app/api/deps.py:31-34 | with an empty `X-API-Key`, `Authorization: Bearer <token>` authenticates and yields exactly the token, in debug mode or not |
| DbService.NewJob | backend/app/db/service.py:82-97 | the stored record: pending, with the given id, tenant, source, mode and priority, no accounts or keywords unless given, zero counts and progress, created and updated now, no error, processing time, start or completion |
| DbService.Updated | backend/app/db/service.py:150-166 | the new status and update time; progress, totals, processed count, error and processing time replaced only when given; a start time exactly for "ingesting" and a completion time exactly for "completed" or "failed"; identity, tenant, creation time, source, accounts, keywords, mode and priority untouched |
| DbService.FilterJobsMembers | backend/app/db/service.py:235-239 | after the tenant and status comprehensions, a job is listed exactly when it was a stored job matching both active filters, and the list is no longer than before |
| DbService.KeepSurvivorsMembers | backend/app/db/service.py:276-279 | the rebuilt dictionary keeps exactly the ids whose job is newer than the cutoff or not finished, and never grows |
| DbService.Lookup | backend/app/db/service.py:235 | the stored jobs in key order, one per key |
| DbService.CleanupCount | backend/app/db/service.py:275-284 | the returned count, old size minus new size, is exactly the number of removed jobs |
| DbService.FilterDistinct | backend/app/db/service.py:276-279 | the rebuilt key order has no repeated id |
| DbService.DatabaseService.constructor | backend/app/db/service.py:29-34 | both in-memory stores start empty |
| DbService.DatabaseService.JobsInOrder | backend/app/db/service.py:235 | the stored jobs in insertion order, one per stored id |
| DbService.DatabaseService.CreateJob | backend/app/db/service.py:70-122 | returns the new record and stores it under its id; a new id joins the end of the insertion order; the insights are untouched |
| DbService.DatabaseService.GetJob | backend/app/db/service.py:124-137 | the stored record exactly when the id is known |
| DbService.DatabaseService.UpdateJobStatus | backend/app/db/service.py:139-198 | True exactly for a known id, which then holds its updated record; an unknown id changes nothing; the order and the insights never change |
| DbService.DatabaseService.ListJobs | backend/app/db/service.py:200-242 | the total is the number of matching jobs; the page is the slice `[offset, offset+limit)` of the matches sorted newest first |
| DbService.DatabaseService.CleanupOldJobs | backend/app/db/service.py:244-284 | without an age, the undeclared `job_ttl_hours` setting raises and nothing changes; with one, the cleanup with cutoff `now - age * 3600` seconds is performed and its removal count returned |
| DbService.DatabaseService.CleanupBefore | backend/app/db/service.py:274-284 | the surviving jobs in their old order, the insight lists of vanished jobs dropped, and the count of removed jobs returned |
| DbService.DatabaseService.StoreInsightsBatch | backend/app/db/service.py:324-328 | the job's insight list, created empty if missing, is extended by the batch; nothing else changes and True is returned |
| DbService.DatabaseService.StoreInsight | backend/app/db/service.py:371-375 | the job's insight list, created empty if missing, gains the insight at its end; nothing else changes and True is returned |
| DbService.DatabaseService.GetInsights | backend/app/db/service.py:402-404 | the total is the length of the job's list (empty for an unknown job); the page holds the insights from `offset` on, in list order: `limit` of them when the list reaches `offset + limit`, the rest of the list when it ends sooner, and none when `offset` is past its end |
| DbService.DatabaseService.ListJobsSound | backend/app/db/service.py:234-242 | the page holds at most `limit` jobs, all stored and matching the filters, newest first, and the total never exceeds the number of stored jobs |
| DbService.DatabaseService.PageMember | backend/app/db/service.py:234-242 | each entry of the page is a stored job that matches the filters |
| Archive.ArchiveKey | backend/app/services/archive_service.py:94-98 | the key starts with `<tenant>/<date>/<job_id>`; it ends with ".gz" exactly when compressing, and with ".json" otherwise |
| Archive.ContentType | backend/app/services/archive_service.py:134 | a bucket object is typed "application/gzip" exactly when it is compressed |
| Archive.ArchiveInsights | backend/app/services/archive_service.py:72-122 | no insights are archived as "No insights to archive" and storage is unchanged; a bucket with no client gives the client error; otherwise the payload is stored under the key, with its size and compression reported, and every other object is kept |
| Archive.BucketContentType | backend/app/services/archive_service.py:124-147 | an object put in a bucket carries the content type of its compression |
| Archive.RetrieveArchive | backend/app/services/archive_service.py:162-204 | a result exists only for a reachable store holding the key; it is the decoded bytes, gunzipped first exactly when decompression is asked and the key ends with ".gz" |
| Archive.ArchiveRetrieveRoundTrip | backend/app/services/archive_service.py:72-188 | archiving and then retrieving with decompression on gives back the insights, compressed or not, whenever JSON and gzip round-trip |
| Archive.ListPrefix | backend/app/services/archive_service.py:223 | the listing prefix starts with `<tenant>/` |
| Archive.Head | backend/app/services/archive_service.py:261 | Python's `s[:n]` is a prefix of `s`, no longer than `n` when `n` is not negative |
| Archive.CappedDirs | backend/app/services/archive_service.py:260 | each walked directory keeps its first `max_results` files, in walk order |
| Archive.ListArchives | backend/app/services/archive_service.py:206-271 | a local listing is the walk's per-directory capped files concatenated in walk order and cut to `max_results`, each found in some walked directory, and empty when the directory is missing; a bucket with no client lists nothing; with a client it is the bucket query on the prefix |
| Archive.ListArchivesComplete | backend/app/services/archive_service.py:258-271 | when the walk finds at most `max_results` files in all, the local listing holds every one of them, in walk order |
| Archive.DeleteArchive | backend/app/services/archive_service.py:273-286 | locally the result is true exactly when the file existed, and then it is removed; a failed bucket call reports false and changes nothing; a bucket with no client reports true and changes nothing; with a client the result is true exactly when the delete call does not fail |
| Archive.Cutoff | backend/app/services/archive_service.py:314-320 | a cutoff lies exactly the given number of days before now |
| Archive.DefaultCutoffs | backend/app/services/archive_service.py:296-320 | with the defaults of 90 and 730 days the deletion cutoff is before the archive cutoff, and both are before now |
| Archive.GroupOrder | backend/app/services/archive_service.py:358-364 | the group order is duplicate-free and holds exactly the jobs of the batch |
| Archive.RecordsOf | backend/app/services/archive_service.py:358-364 | a job's group is never longer than the batch |
| Archive.RecordsOfAt | backend/app/services/archive_service.py:360-364 | every row's record is in its job's group |
| Archive.RecordsOfAbsent | backend/app/services/archive_service.py:360-364 | a job with no row in the batch has an empty group |
| Archive.RecordsOfSnoc | backend/app/services/archive_service.py:360-364 | one more row adds its record to the end of its own job's group and to no other |
| Archive.GroupOrderSnoc | backend/app/services/archive_service.py:362-363 | one more row appends its job to the group order exactly when that job is new |
| Archive.GroupStep | backend/app/services/archive_service.py:360-364 | grouping one more row keeps the order and the groups those of the longer batch |
| Archive.KeysSnoc | backend/app/services/archive_service.py:362-364 | the keys of the groups stay the jobs of the order |
| Archive.GroupsSnoc | backend/app/services/archive_service.py:364 | after one more row each group holds its job's records |
| Archive.GroupSizesSnoc | backend/app/services/archive_service.py:360-364 | one more row adds one to the total size of the listed groups exactly when its job is among them |
| Archive.GroupsPartition | backend/app/services/archive_service.py:358-364 | the group sizes add up to the number of rows in the batch |
| Archive.FailedOver | backend/app/services/archive_service.py:380-382 | no more errors are counted than there are groups |
| Archive.ArchivedAll | backend/app/services/archive_service.py:366-382 | when every group succeeds, the archived count is the total group size and no error is counted |
| Archive.AllGroupsArchived | backend/app/services/archive_service.py:366-382 | when every group succeeds, the pass archives every row of the batch and counts no error |
| Archive.OverNext | backend/app/services/archive_service.py:379-382 | one more group adds its size to the archived count when it succeeds, and one to the errors otherwise |
| Archive.GroupByJob | backend/app/services/archive_service.py:358-364 | the loop yields the group order and, for each job, exactly its records in batch order |
| Archive.MarkArchived | backend/app/services/archive_service.py:374-377 | every row of the job is stamped with now, and every other row is left as it was |
| Archive.ArchiveGroup | backend/app/services/archive_service.py:367-382 | the call succeeds as the group's archive call does, and only then are the group's rows stamped |
| Archive.ArchiveBatch | backend/app/services/archive_service.py:340-387 | an empty batch ends the loop with nothing counted; otherwise one batch is counted, archived sums the sizes of the groups that succeeded, errors counts the others, and exactly the rows of successful groups are stamped |
| CircuitBreaker.MakeConfig | backend/app/core/circuit_breaker.py:40-48 | the constructor's thresholds are kept, and the rest default to 3 trial calls, 2 successes and a 60-second window |
| CircuitBreaker.InitialState | backend/app/core/circuit_breaker.py:52-60 | a new breaker is CLOSED, with zeroed counters, no last failure, an empty window and a state change at now |
| CircuitBreaker.AppendCapped | backend/app/core/circuit_breaker.py:60 | appending to the capped deque keeps at most 100 timestamps, puts the new one last and keeps the newest of the old ones in order |
| CircuitBreaker.Pruned | backend/app/core/circuit_breaker.py:121-126 | pruning drops exactly a prefix of timestamps older than the cutoff and stops at the first one that is not |
| CircuitBreaker.PrunedAtRest | backend/app/core/circuit_breaker.py:124 | a window whose oldest timestamp is at or after the cutoff is left as it is |
| CircuitBreaker.PrunedStateIs | backend/app/core/circuit_breaker.py:121-126 | the pruned state is the old state with only its window replaced by the pruned window |
| CircuitBreaker.PrunedKeepsNewest | backend/app/core/circuit_breaker.py:121-126 | a newest timestamp at or after the cutoff survives pruning and stays last |
| CircuitBreaker.PrunedKeepsRecent | backend/app/core/circuit_breaker.py:121-126 | a window with no timestamp older than the cutoff survives pruning whole |
| CircuitBreaker.ShouldAttemptReset | backend/app/core/circuit_breaker.py:114-119 | a reset is tried exactly when there was no failure or the recovery timeout has elapsed since the last one |
| CircuitBreaker.TransitionTo | backend/app/core/circuit_breaker.py:164-175 | the new state and change time are set; entering CLOSED zeroes both counters; entering HALF_OPEN zeroes the trial and success counters; the window and last failure time never change |
| CircuitBreaker.AfterSuccess | backend/app/core/circuit_breaker.py:128-136 | outside HALF_OPEN only the failure count is reset; in HALF_OPEN the success count grows, and reaching the threshold closes the breaker with zeroed counters |
| CircuitBreaker.Noted | backend/app/core/circuit_breaker.py:141-144 | every failure appends its timestamp, sets the last failure time and adds one to the failure count, before any transition |
| CircuitBreaker.AfterFailureMeans | backend/app/core/circuit_breaker.py:138-150 | after a failure the window is within its cap and ends with the failure; HALF_OPEN reopens; otherwise the breaker is OPEN exactly when it already was or the pruned window reaches the threshold; a failure never closes it |
| CircuitBreaker.AfterFailureHalfOpen | backend/app/core/circuit_breaker.py:146-148 | a failure in HALF_OPEN reopens the breaker at once |
| CircuitBreaker.AfterFailurePruned | backend/app/core/circuit_breaker.py:149-150 | outside HALF_OPEN the window is pruned and the breaker opens at the threshold |
| CircuitBreaker.CanExecute | backend/app/core/circuit_breaker.py:188-206 | CLOSED admits; OPEN admits and moves to HALF_OPEN exactly when a reset is due, and rejects otherwise; HALF_OPEN admits while trial calls remain, counting one more |
| CircuitBreaker.Protect | backend/app/core/circuit_breaker.py:208-236 | a rejected call is never run and yields the fallback or the open error; an admitted call that raises is recorded as a failure and yields the fallback or the error again; one that returns is recorded as a success and yields its value |
| CircuitBreaker.OperationsKeepWellFormed | backend/app/core/circuit_breaker.py:60 | success, failure and admission keep the window within 100 timestamps and the trial counter within its maximum |
| CircuitBreaker.HalfOpenAdmissionsBounded | backend/app/core/circuit_breaker.py:200-204 | with no outcome recorded, HALF_OPEN admits at most the remaining trial calls |
| CircuitBreaker.HalfOpenEpisodeBounded | backend/app/core/circuit_breaker.py:194-204 | an OPEN breaker admits at most the trial calls plus the one that half-opens it before an outcome is recorded |
| CircuitBreaker.HalfOpenEpisodeFull | backend/app/core/circuit_breaker.py:200-203 | that bound is reached: HALF_OPEN admits every remaining trial call |
| CircuitBreaker.SuccessesClose | backend/app/core/circuit_breaker.py:131-134 | in HALF_OPEN, enough successes to reach the threshold close the breaker with no failure counted |
| CircuitBreaker.FailuresOpen | backend/app/core/circuit_breaker.py:141-150 | from CLOSED, a failure that brings the recent failures in the window to the threshold opens the breaker |
| CircuitBreaker.Breaker.constructor | backend/app/core/circuit_breaker.py:83-100 | a new breaker has the given name, thresholds and fallback and the initial state |
| CircuitBreaker.Breaker.CountRecentFailures | backend/app/core/circuit_breaker.py:121-126 | the loop pops old timestamps until the state is the pruned state, and returns the size of the window |
| CircuitBreaker.Breaker.Transition | backend/app/core/circuit_breaker.py:164-175 | the fields become TransitionTo of the old state |
| CircuitBreaker.Breaker.RecordSuccess | backend/app/core/circuit_breaker.py:128-136 | the fields become AfterSuccess of the old state |
| CircuitBreaker.Breaker.NoteFailure | backend/app/core/circuit_breaker.py:141-144 | the fields become Noted of the old state |
| CircuitBreaker.Breaker.RecordFailure | backend/app/core/circuit_breaker.py:138-150 | the fields become AfterFailure of the old state, and the window stays within its cap |
| CircuitBreaker.Breaker.CanExecuteNow | backend/app/core/circuit_breaker.py:188-206 | the decision and the new fields are those of CanExecute |
| CircuitBreaker.Breaker.ProtectCall | backend/app/core/circuit_breaker.py:208-236 | the outcome, whether the function ran, and the new fields are those of Protect |
| CircuitBreaker.PresetSettings | backend/app/core/circuit_breaker.py:298-323 | the scraper breaker uses 10 failures and 120 seconds, the others 5 and 60, and every breaker except the AI one has a fallback |
| Counting.Empty | backend/app/api/routes/insights.py:258-260 | a new counting dictionary has no keys |
| Counting.Bump | backend/app/api/routes/insights.py:270 | one bump adds one to the key's count and leaves every other count alone; a new key goes to the end of the key order |
| Counting.BumpAll | backend/app/api/routes/insights.py:269-270 | after bumping once per element, each count has grown by the key's number of occurrences |
| Counting.BumpAllSnoc | backend/app/api/routes/insights.py:269-270 | bumping once more after a run of bumps extends the run by one element |
| Counting.BumpEach | backend/app/api/routes/insights.py:269-270 | the loop leaves the dictionary that BumpAll describes |
| Counting.TotalBump | backend/app/api/routes/insights.py:270 | one bump adds one to the total count |
| Counting.TotalBumpAll | backend/app/api/routes/insights.py:269-270 | the counts add up to the number of bumped elements |
| Counting.BumpAllKeys | backend/app/api/routes/insights.py:269-270 | counting from empty keeps the keys in order of first occurrence, with no repeats |
| Counting.Entries | backend/app/api/routes/insights.py:291 | the items are the keys in order, each paired with its count |
| Counting.EntriesSum | backend/app/api/routes/insights.py:291 | the items' counts add up to the total |
| Counting.EntryCountOf | backend/app/api/routes/insights.py:291 | an item carries its key's count |
| Counting.SumCountsPerm | backend/app/api/routes/insights.py:290-294 | reordering items keeps the sum of their counts |
| Counting.Ranked | backend/app/api/routes/insights.py:290-306 | the ranking has one item per key and is a permutation of the items, sorted by count from highest |
| Counting.RankedEntries | backend/app/api/routes/insights.py:290-306 | each ranked item is a key of the dictionary with its own count |
| Counting.RankedDistinct | backend/app/api/routes/insights.py:290-306 | no key is ranked twice |
| Counting.Top | backend/app/api/routes/insights.py:290-300 | Python's `sorted(...)[:n]`: exactly min(n, number of keys) items, each the ranking's item at that position, so counts never rise along it |
| Counting.TopMostFrequent | backend/app/api/routes/insights.py:290-300 | an item left out of the top n has no larger count than any item in it |
| Counting.TopKeyMostFrequent | backend/app/api/routes/insights.py:290-300 | a key left out of the top n is counted no more often than any key in it |
| Counting.TopTies | backend/app/api/routes/insights.py:290-300 | the top n items with a given count are the first items with that count in dictionary order |
| Dedup.FromBitsBound | backend/app/services/dedup_service.py:151-157 | a number built from n binary digits is below 2^n |
| Dedup.FromBitsBit | backend/app/services/dedup_service.py:145 | digit i of the number built from the bits is bit i |
| Dedup.FromBitsSnoc | backend/app/services/dedup_service.py:153-155 | setting one more high bit adds exactly that power of two |
| Dedup.Ones | backend/app/services/dedup_service.py:142-149 | no more tokens have a bit set than there are tokens |
| Dedup.Votes | backend/app/services/dedup_service.py:142-149 | a bit counter ends as the tokens with the bit set minus those without it |
| Dedup.VoteBits | backend/app/services/dedup_service.py:151-155 | bit i is kept exactly when its counter ends positive |
| Dedup.SimHashBits | backend/app/services/dedup_service.py:126-157 | no tokens hash to 0; the hash fits in its width; bit i is set exactly when more tokens have it set than unset |
| Dedup.Vote | backend/app/services/dedup_service.py:144-149 | for one token, each counter goes up by one if the token hash has that bit, and down by one otherwise |
| Dedup.TallyBits | backend/app/services/dedup_service.py:139-149 | after the token loop, the fresh counter array holds each bit's vote |
| Dedup.ComputeSimhash | backend/app/services/dedup_service.py:126-157 | the method computes the SimHash of the split tokens |
| Dedup.Hamming | backend/app/services/dedup_service.py:166-167 | the Hamming distance over n bits is at most n |
| Dedup.Similarity | backend/app/services/dedup_service.py:159-171 | similarity lies between 0 and 1 |
| Dedup.HammingSymmetric | backend/app/services/dedup_service.py:166 | Hamming distance is symmetric |
| Dedup.HammingZero | backend/app/services/dedup_service.py:166-167 | the distance is 0 exactly when all the bits agree |
| Dedup.SimilarityProperties | backend/app/services/dedup_service.py:159-171 | similarity is symmetric, equals 1 exactly when all 64 bits agree, and a hash is fully similar to itself |
| Dedup.NoneSeen | backend/app/services/dedup_service.py:31-37 | empty seen tables are consistent |
| Dedup.FirstNear | backend/app/services/dedup_service.py:67-70 | finds the first seen SimHash, in insertion order, at or above the threshold, or none when every one is below it |
| Dedup.Remember | backend/app/services/dedup_service.py:73-74 | both tables record the newcomer's id, and a SimHash already present keeps its place |
| Dedup.Check | backend/app/services/dedup_service.py:39-76 | the seen tables stay consistent |
| Dedup.CheckVerdict | backend/app/services/dedup_service.py:39-76 | empty content is never a duplicate and changes nothing; exact duplicate exactly when the hash was seen, with its recorded id; otherwise near duplicate exactly when some seen SimHash is similar enough, with the first one's id; never both; a duplicate leaves the tables alone and a newcomer is recorded |
| Dedup.Flag | backend/app/services/dedup_service.py:103-106 | the item is kept, it is a duplicate exactly when exact or near, and the flags and the original id are the verdict's |
| Dedup.Steps | backend/app/services/dedup_service.py:95-106 | the batch loop yields one verdict per item so far and keeps the tables consistent |
| Dedup.Verdicts | backend/app/services/dedup_service.py:97-106 | there is one verdict per item |
| Dedup.Batch | backend/app/services/dedup_service.py:78-108 | the batch returns one flagged item per item |
| Dedup.StepsPrefix | backend/app/services/dedup_service.py:97-101 | later items never change an earlier verdict: item i is judged against the tables that the items before it left |
| Dedup.FromGrow | backend/app/services/dedup_service.py:97-101 | a table entry traced to an earlier item stays traced as the batch grows |
| Dedup.TracedSkip | backend/app/services/dedup_service.py:62-70 | an item judged a duplicate leaves the tables traced |
| Dedup.TracedAdd | backend/app/services/dedup_service.py:72-74 | a recorded item leaves both tables traced |
| Dedup.TracedStep | backend/app/services/dedup_service.py:97-101 | checking one more item keeps every entry traced to a recorded item |
| Dedup.SeenTraced | backend/app/services/dedup_service.py:95-106 | after k items, every table entry comes from a recorded item among them |
| Dedup.CoveredStep | backend/app/services/dedup_service.py:72-74 | checking one more item keeps every recorded item's hash in the table |
| Dedup.SeenCovered | backend/app/services/dedup_service.py:95-106 | after k items, the table holds the hash of every recorded item among them |
| Dedup.BatchItems | backend/app/services/dedup_service.py:78-108 | each item comes back unchanged in its place, a duplicate exactly when exact or near and never both; empty content is never a duplicate |
| Dedup.RecordedHashesDistinct | backend/app/services/dedup_service.py:60-74 | two items recorded by one batch never share a content hash |
| Dedup.ExactOriginal | backend/app/services/dedup_service.py:62-63 | an exact duplicate points at an earlier recorded item with the same content hash |
| Dedup.NearOriginal | backend/app/services/dedup_service.py:66-70 | a near duplicate points at an earlier recorded item whose SimHash is similar enough |
| Dedup.DeduplicationService.constructor | backend/app/services/dedup_service.py:23-32 | a new service has the threshold, a 64-bit width and empty tables |
| Dedup.DeduplicationService.Reset | backend/app/services/dedup_service.py:34-37 | both tables are emptied |
| Dedup.DeduplicationService.CheckDuplicate | backend/app/services/dedup_service.py:39-76 | the verdict and the new tables are those of Check |
| Dedup.DeduplicationService.FlagNext | backend/app/services/dedup_service.py:97-106 | one turn of the loop extends the verdicts and the flagged items by Steps |
| Dedup.DeduplicationService.DeduplicateBatch | backend/app/services/dedup_service.py:78-108 | the result is Batch of the items, and the tables are those the whole batch leaves |
| Dedup.Window | backend/app/services/dedup_service.py:246 | a window has the shingle size and is the text from its start position |
| Dedup.Windows | backend/app/services/dedup_service.py:244-246 | no more distinct windows than start positions |
| Dedup.WindowsMembers | backend/app/services/dedup_service.py:244-246 | a string is a window exactly when it starts at some position before n |
| Dedup.ShingleTextOrder | backend/app/services/dedup_service.py:240 | stripping and then lowering gives the text the source lowers and then strips |
| Dedup.ShinglesProperties | backend/app/services/dedup_service.py:238-248 | there is always a shingle; a text shorter than the size is its own only shingle; otherwise the shingles are exactly the windows, at most one per start |
| Dedup.ShingleSet | backend/app/services/dedup_service.py:241-248 | the loop builds the shingles of the text |
| Dedup.GenerateShingles | backend/app/services/dedup_service.py:238-248 | the shingles of the lowered and stripped text |
| Dedup.SignatureUnique | backend/app/services/dedup_service.py:209-217 | a set of shingles has exactly one signature |
| Dedup.MinOver | backend/app/services/dedup_service.py:212-216 | the running minimum ends as the least seeded hash over the shingles |
| Dedup.Matches | backend/app/services/dedup_service.py:235 | no more matches than positions |
| Dedup.MatchesSymmetric | backend/app/services/dedup_service.py:235 | counting matches is symmetric |
| Dedup.MatchesAll | backend/app/services/dedup_service.py:235 | every position matches exactly when the signatures are equal |
| Dedup.EstimateSimilarity | backend/app/services/dedup_service.py:221-236 | different lengths score 0; two empty signatures divide by zero; otherwise it lies between 0 and 1 |
| Dedup.EstimateProperties | backend/app/services/dedup_service.py:221-236 | the estimate is symmetric, and exactly 1 for equal non-empty signatures |
| Dedup.ScanMembers | backend/app/services/dedup_service.py:272-275 | the scan fails exactly when some estimate divides by zero; otherwise it keeps exactly the documents reaching the threshold, with their estimate |
| Dedup.ScanPrefixNone | backend/app/services/dedup_service.py:272-273 | a scan that fails on a prefix fails on the whole store |
| Dedup.Ranked | backend/app/services/dedup_service.py:277-278 | the ranking is a permutation of the scan, sorted by similarity from highest |
| Dedup.MinHashService.constructor | backend/app/services/dedup_service.py:181-191 | a new service has the sizes and the seeded hash, and no stored signatures |
| Dedup.MinHashService.ComputeSignature | backend/app/services/dedup_service.py:193-219 | the result is the signature of the text's shingles: one minimum per seed |
| Dedup.MinHashService.SignatureOf | backend/app/services/dedup_service.py:209-219 | the seed loop builds the signature of the shingles |
| Dedup.MinHashService.AddDocument | backend/app/services/dedup_service.py:250-252 | the document's signature is stored, overwriting only its own entry, and a new id goes last |
| Dedup.MinHashService.Store | backend/app/services/dedup_service.py:252 | only the document's entry changes, and a new id goes last in insertion order |
| Dedup.MinHashService.FindSimilar | backend/app/services/dedup_service.py:254-279 | the result is the scan of the stored documents against the text's signature, ranked by similarity |
| Dedup.MinHashService.RankAgainst | backend/app/services/dedup_service.py:269-279 | the result is the ranked scan for the given signature |
| Events.ParseEventType | backend/app/api/routes/events.py:28-40 | a parsed value is the wire value of the event type it names |
| Events.ParseEventTypeComplete | backend/app/api/routes/events.py:28-40 | every event type parses back from its own wire value |
| Events.Delivered | backend/app/api/routes/events.py:61-72 | every target queue gains the item at its tail, and every other queue is unchanged |
| Events.DeliveredSnoc | backend/app/api/routes/events.py:66-72 | delivering to one more queue appends to that queue alone |
| Events.DeliveredTwice | backend/app/api/routes/events.py:66-72 | delivering to the job's queues and then to the global ones is delivering to both lists at once |
| Events.DeliveredFifo | backend/app/api/routes/events.py:61-72 | two publications reach a subscribed queue in publication order |
| Events.RemoveFirst | backend/app/api/routes/events.py:86-87 | removing the first occurrence of a queue shortens the list by one exactly when it was there, keeps every other queue, and leaves a duplicate-free list without it |
| Events.SseFrame | backend/app/api/routes/events.py:145-149 | a frame is the event line (type "message" when missing), the data line and a blank line |
| Events.HeartbeatFrame | backend/app/api/routes/events.py:151-153 | a heartbeat is a comment frame ending in a blank line |
| Events.ItemFrame | backend/app/api/routes/events.py:139-149 | a dequeued item is framed with its own event type and its JSON |
| Events.RecentEvents | backend/app/api/routes/events.py:222-238 | a limit outside 1..100 is rejected, and any other limit gives no events |
| Events.JobAcceptedEvent | backend/app/api/routes/events.py:245-254 | the event has the job-accepted type, the job, tenant and data, and the queued message |
| Events.PartialResultEvent | backend/app/api/routes/events.py:257-266 | the event has the partial-result type, the job, tenant and data, and the partial-results message |
| Events.CompleteEvent | backend/app/api/routes/events.py:269-278 | the event has the complete type, the job, tenant and data, and the completed message |
| Events.ErrorEvent | backend/app/api/routes/events.py:281-290 | the event has the error type, the job, tenant and data, and the error as its message |
| Events.EventBus.constructor | backend/app/api/routes/events.py:57-58 | both registries start empty |
| Events.EventBus.Deliver | backend/app/api/routes/events.py:66-72 | the loop leaves the queues as Delivered says and changes no registry |
| Events.EventBus.Publish | backend/app/api/routes/events.py:61-72 | the event reaches the tail of every queue subscribed to its job and every global queue, once each, and nothing else changes |
| Events.EventBus.SubscribeToJob | backend/app/api/routes/events.py:75-81 | a fresh empty queue is appended to the job's list, which is created when absent |
| Events.EventBus.SubscribeGlobal | backend/app/api/routes/events.py:90-94 | a fresh empty queue is appended to the global list |
| Events.EventBus.UnsubscribeFromJob | backend/app/api/routes/events.py:84-87 | a subscribed queue is removed from its job's list, which stays even when empty; otherwise nothing changes |
| Events.EventBus.UnsubscribeGlobal | backend/app/api/routes/events.py:97-100 | a subscribed queue is removed from the global list; otherwise nothing changes |
| Events.EventBus.CleanupEmptySubscriptions | backend/app/api/routes/events.py:103-107 | exactly the jobs with empty lists are dropped, and the other lists are kept as they were |
| Events.EventBus.CleanupAllSubscribers | backend/app/api/routes/events.py:110-113 | both registries become empty |
| Events.EventBus.OpenStream | backend/app/api/routes/events.py:188-202 | a job id subscribes a fresh queue to that job, and no job id subscribes it globally; the queue starts with the greeting, "*" filling a missing job or tenant |
| Events.EventBus.EmitJobAccepted | backend/app/api/routes/events.py:245-254 | the job-accepted event is published to the job's and the global subscribers |
| Events.EventBus.EmitPartialResult | backend/app/api/routes/events.py:257-266 | the partial-result event is published to the job's and the global subscribers |
| Events.EventBus.EmitComplete | backend/app/api/routes/events.py:269-278 | the complete event is published to the job's and the global subscribers |
| Events.EventBus.EmitError | backend/app/api/routes/events.py:281-290 | the error event is published to the job's and the global subscribers |
| Numeric.TruncBounds | backend/app/api/routes/jobs.py:299 | `int(x)` truncates toward zero: it moves a value by less than one and keeps its sign |
| JobsRoute.ParseStatus | backend/app/api/routes/jobs.py:25-33 | a parsed status is the member whose value is the given string; any other string is rejected |
| JobsRoute.ParsePriority | backend/app/api/routes/jobs.py:36-40 | a parsed priority is the member whose value is the given string; any other string is rejected |
| JobsRoute.EnumRoundTrip | backend/app/api/routes/jobs.py:25-40 | every status and priority value parses back to its own member, so the values are pairwise distinct |
| JobsRoute.NewMockJob | backend/app/api/routes/jobs.py:118-141 | the stored record: pending, tenant "default", source "scraped", priority normal and mode "realtime" unless given, the item count (0 without items), zero counters, created at the acceptance time or now, updated now, no start, completion, error or processing time |
| JobsRoute.FilterJobs | backend/app/api/routes/jobs.py:207-216 | exactly the registry's jobs that match every active filter, and no more of them than there were |
| JobsRoute.Summaries | backend/app/api/routes/jobs.py:228-242 | one summary per job of the page, in order |
| JobsRoute.RowSummaries | backend/app/api/routes/jobs.py:178-192 | the conversion of the database rows succeeds exactly when every row's status and priority are enum values, and then each summary is its row's |
| JobsRoute.LookupJobs | backend/app/api/routes/jobs.py:207 | the registry's records in key order, one per key |
| JobsRoute.Estimate | backend/app/api/routes/jobs.py:294-299 | an estimate exists exactly when progress is positive and a non-zero processing time is recorded; it is never negative for progress up to 100, and 0 at 100 |
| JobsRoute.CancelCode | backend/app/api/routes/jobs.py:321-342 | 404 exactly for an unknown job, 400 exactly for a completed or failed one, 204 otherwise |
| JobsRoute.Cancelled | backend/app/api/routes/jobs.py:335-338 | the job marked failed with "Cancelled by user" and the current update time, every other field unchanged |
| JobsRoute.CancelOnce | backend/app/api/routes/jobs.py:329-336 | a cancelled job is failed, so cancelling it again answers 400 |
| JobsRoute.SliceFromMatching | backend/app/api/routes/jobs.py:207-225 | every entry of a slice of the sorted matches is a registry job matching the filters |
| JobsRoute.SliceNewestFirst | backend/app/api/routes/jobs.py:218-225 | every slice of the sorted matches is ordered newest first |
| JobsRoute.MockJobStore.constructor | backend/app/api/routes/jobs.py:110 | the registry starts empty |
| JobsRoute.MockJobStore.JobsInOrder | backend/app/api/routes/jobs.py:207 | the registry's records in insertion order, one per stored id |
| JobsRoute.MockJobStore.CreateMockJob | backend/app/api/routes/jobs.py:118-141 | the id now maps to the new pending record; a new id is appended to the insertion order and a known one keeps its place |
| JobsRoute.MockJobStore.GetMockJob | backend/app/api/routes/jobs.py:113-115 | the stored record exactly when the id is known |
| JobsRoute.MockJobStore.GetJob | backend/app/api/routes/jobs.py:255-273 | 404 exactly for an unknown id, otherwise the full stored record |
| JobsRoute.MockJobStore.GetJobStatus | backend/app/api/routes/jobs.py:276-308 | 404 exactly for an unknown id; otherwise the job's id, status, progress and counts, with an estimate exactly when progress is positive and a processing time is recorded |
| JobsRoute.MockJobStore.CancelJob | backend/app/api/routes/jobs.py:311-342 | answers the code of the stored entry; only a 204 changes the registry, replacing the job by its cancelled form |
| JobsRoute.MockJobStore.InMemoryList | backend/app/api/routes/jobs.py:206-252 | the total is the number of matches, the page count covers it, and the page is the summaries of page `page` of the matches sorted newest first |
| JobsRoute.MockJobStore.ListJobs | backend/app/api/routes/jobs.py:148-252 | 422 exactly for page < 1 or a limit outside 1..100; a non-empty, convertible database page is answered as is with the database's total; otherwise (an empty page, a conversion error or a failed query) the in-memory listing |
| JobsRoute.MockJobStore.InMemoryListBounds | backend/app/api/routes/jobs.py:222-250 | the page holds at most `limit` jobs, the total never exceeds the registry's size, and the page count times the limit covers the total |
| JobsRoute.MockJobStore.InMemoryListMatches | backend/app/api/routes/jobs.py:207-242 | each summary on the page is that of a stored job matching every filter |
| JobsRoute.MockJobStore.InMemoryListNewestFirst | backend/app/api/routes/jobs.py:218-225 | the page is ordered newest first |
| JobsRoute.MockJobStore.InMemoryListComplete | backend/app/api/routes/jobs.py:218-250 | the i-th match in newest-first order is on page i/limit+1, within the page count, at position i mod limit |
| Paging.TotalPages | backend/app/api/routes/jobs.py:250 | the least page count whose pages hold every item: it covers the total and one page fewer would not, and it is 0 for no items |
| Paging.Offset | backend/app/api/routes/jobs.py:223-224 | page `page` starts exactly `limit` items before the end index `page * limit` |
| Paging.PageHolds | backend/app/api/routes/jobs.py:222-225 | every item lies on page i/limit+1, within the page count, at position i mod limit |
| Sorting.SortDesc | backend/app/api/routes/jobs.py:219 | a permutation of the input ordered by non-increasing key |
| Sorting.SortDescStable | backend/app/api/routes/jobs.py:219 | the sort is stable: the items sharing a key keep their input order |
| Sorting.Insert | backend/app/api/routes/jobs.py:219 | one step of the sort: the list with exactly the new item added |
| Sorting.InsertSorted | backend/app/api/routes/jobs.py:219 | inserting into a list sorted by non-increasing key keeps it sorted |
| ImagePreprocessing.Preset | backend/app/services/image_preprocessing.py:339-367 | "fast" enables contrast enhancement only, "best" every step, and anything else the balanced flags; every preset enhances contrast |
| ImagePreprocessing.PresetSteps | backend/app/services/image_preprocessing.py:341-358 | the fast preset applies contrast enhancement alone, and the best preset applies all five steps |
| ImagePreprocessing.MulNonneg | backend/app/services/image_preprocessing.py:166-175 | a product of two non-negative scale terms is non-negative |
| ImagePreprocessing.DownScaleRange | backend/app/services/image_preprocessing.py:165-166 | the downscale factor undoes the division by the longest side, is not negative, and is below one when the image is over the maximum |
| ImagePreprocessing.ScaleDown | backend/app/services/image_preprocessing.py:165-168 | a side scaled down and truncated shrinks and stays within the maximum |
| ImagePreprocessing.ScaleUp | backend/app/services/image_preprocessing.py:172-175 | a side scaled up and truncated grows at most twofold and stays within 1000 |
| ImagePreprocessing.ResizeUnchanged | backend/app/services/image_preprocessing.py:158-178 | a side below the minimum, or a longest side between 1000 and the maximum, leaves the size unchanged |
| ImagePreprocessing.WidthDown | backend/app/services/image_preprocessing.py:165-167 | the scaled-down width shrinks and fits within the maximum |
| ImagePreprocessing.HeightDown | backend/app/services/image_preprocessing.py:165-168 | the scaled-down height shrinks and fits within the maximum |
| ImagePreprocessing.ResizeDown | backend/app/services/image_preprocessing.py:165-169 | an image over the maximum is scaled down in both sides, to a longest side within the maximum |
| ImagePreprocessing.ResizeUp | backend/app/services/image_preprocessing.py:172-176 | an image below 1000 grows by at most a factor of two in each side, to a longest side within 1000 |
| ImagePreprocessing.BorderCrop | backend/app/services/image_preprocessing.py:294-298 | the crop starts inside the image and never runs past its right or bottom edge |
| ImagePreprocessing.BorderCropInside | backend/app/services/image_preprocessing.py:291-298 | a bounding box inside the image gives a crop inside the image that still holds the whole box |
| ImagePreprocessing.SliceLen | backend/app/services/image_preprocessing.py:300 | a slice inside the array has the requested length |
| ImagePreprocessing.StepNamesDistinct | backend/app/services/image_preprocessing.py:106-142 | no two steps are recorded under the same name |
| ImagePreprocessing.Resized | backend/app/services/image_preprocessing.py:154-178 | the resized image keeps its colour channels, and an image whose size is unchanged is returned as it was |
| ImagePreprocessing.BordersRemoved | backend/app/services/image_preprocessing.py:275-300 | an image with no contour is returned unchanged |
| ImagePreprocessing.RisingPairs | backend/app/services/image_preprocessing.py:104-142 | along the recorded steps every earlier step comes before every later one in the pipeline |
| ImagePreprocessing.AppendPart | backend/app/services/image_preprocessing.py:118-142 | recording a later step, or nothing, keeps the recorded steps in pipeline order |
| ImagePreprocessing.Join | backend/app/services/image_preprocessing.py:104-142 | the resize and grayscale steps followed by the filter steps stay in pipeline order |
| ImagePreprocessing.HeadOrdered | backend/app/services/image_preprocessing.py:104-115 | the resize and grayscale steps are recorded in that order |
| ImagePreprocessing.CleanupOrdered | backend/app/services/image_preprocessing.py:118-132 | denoise, deskew and border removal are recorded in that order |
| ImagePreprocessing.FilterOrdered | backend/app/services/image_preprocessing.py:118-142 | the five filter steps are recorded in pipeline order |
| ImagePreprocessing.StepsOrdered | backend/app/services/image_preprocessing.py:96-152 | the recorded steps appear in pipeline order, each at most once |
| ImagePreprocessing.RisingDistinct | backend/app/services/image_preprocessing.py:96-152 | steps recorded in pipeline order never repeat |
| ImagePreprocessing.HeadIn | backend/app/services/image_preprocessing.py:105-113 | resize is recorded exactly when the size changed, grayscale exactly when the image had colour |
| ImagePreprocessing.CleanupIn | backend/app/services/image_preprocessing.py:118-132 | denoise, deskew and border removal are recorded exactly when each one's condition holds |
| ImagePreprocessing.FilterIn | backend/app/services/image_preprocessing.py:118-142 | each filter step is recorded exactly when its condition holds |
| ImagePreprocessing.StepsPresence | backend/app/services/image_preprocessing.py:104-142 | a step is recorded exactly when its condition holds, and deskew only when the skew exceeds 0.5 degrees |
| ImagePreprocessing.Filtered | backend/app/services/image_preprocessing.py:118-142 | without border removal the size is kept, and without deskew the reported angle is 0 |
| ImagePreprocessing.PreprocessOutcome | backend/app/services/image_preprocessing.py:62-152 | missing libraries and an undecodable image give their errors; a result reports the decoded image's original size |
| ImagePreprocessing.FinalSize | backend/app/services/image_preprocessing.py:104-152 | without border removal the final size is the new size when resized and the original size otherwise, and resize is recorded exactly then |
| ImagePreprocessing.Preprocess | backend/app/services/image_preprocessing.py:62-152 | the method returns PreprocessOutcome, recording its steps as it goes |
| ImagePreprocessing.ApplyFilters | backend/app/services/image_preprocessing.py:118-142 | the filters yield Filtered's image and angle, the enabled steps in order, and the skew angle only when it was corrected |
| ImagePreprocessing.PreprocessUrl | backend/app/services/image_preprocessing.py:302-318 | a failed download gives its error, and otherwise the bytes are preprocessed |
| ImagePreprocessing.PreprocessForOcr | backend/app/services/image_preprocessing.py:325-367 | a default preprocessor runs with the flags of the quality preset |
| Ingest.NormalizedItem | backend/app/api/routes/ingest.py:31-37 | an item's URL is replaced by its normalised form and nothing else changes |
| Ingest.NormalizedItems | backend/app/api/routes/ingest.py:55-58 | the item list, when given, keeps its length and order with each item's URL normalised |
| Ingest.Validate | backend/app/api/routes/ingest.py:31-83 | a body is accepted exactly when the source type is given and matches its pattern, a tenant is given, mode and priority are missing or match their patterns, and every item URL is an http(s) URL; otherwise 422; an accepted request keeps the fields sent, with item URLs normalised and "realtime" and "normal" filled in for a missing mode or priority |
| Ingest.ValidateRoundTrip | backend/app/api/routes/ingest.py:31-83 | validation accepts exactly the well-formed requests sent in full whose URLs parse, and gives back unchanged those whose URLs are already normal |
| Ingest.ValidateDefaults | backend/app/api/routes/ingest.py:70-83 | leaving out mode and priority is the same as sending "realtime" and "normal" |
| Ingest.ValidateRefuses | backend/app/api/routes/ingest.py:35-83 | an explicit null mode or priority, or an item URL that is not an http(s) URL, is refused with 422 |
| Ingest.PriorityValue | backend/app/api/routes/ingest.py:143-144 | low is 1, normal 5 and high 10, and anything else 5 |
| Ingest.JobDataOf | backend/app/api/routes/ingest.py:147-158 | the payload has the job id and acceptance time, and items exactly when the request has a non-empty item list |
| Ingest.JobDataRoundTrip | backend/app/api/routes/ingest.py:147-158 | the payload carries the whole request, except that an empty item list arrives as None |
| Ingest.Submit | backend/app/api/routes/ingest.py:115-190 | 400 when nothing is given to ingest; a failed enqueue is 503 unless in debug mode, where the job runs in the background; an accepted job answers "queued" with its id and priority message, and is enqueued under its own id with the mapped priority |
| Ingest.Submissions | backend/app/api/routes/ingest.py:211-213 | one submission per request of the batch |
| Ingest.SubmissionsAt | backend/app/api/routes/ingest.py:211-213 | the submission at each position is that request's own |
| Ingest.BatchPrefixMeaning | backend/app/api/routes/ingest.py:210-216 | a batch that did not stop has one response and one job per request, each the request's own; one that stopped did so at the first refused request, with exactly the jobs before it dispatched |
| Ingest.BatchPrefixStep | backend/app/api/routes/ingest.py:211-214 | one more submission either extends the responses and jobs or stops the batch with its error |
| Ingest.BatchPrefixStops | backend/app/api/routes/ingest.py:211-214 | once the batch has stopped, later requests change nothing |
| Ingest.Batch | backend/app/api/routes/ingest.py:193-216 | more than 100 requests are refused with 400 before any submission; otherwise the requests are submitted in order |
| Ingest.BatchAllAccepted | backend/app/api/routes/ingest.py:210-216 | when every request is accepted, the batch answers one response per request, in order |
| Ingest.BatchStopsAtEmpty | backend/app/api/routes/ingest.py:132-136 | a request with nothing to ingest stops the batch with an error, and no request from it onward dispatches a job |
| Ingest.SubmitBatch | backend/app/api/routes/ingest.py:193-216 | one invalid request refuses the whole body with 422 and dispatches nothing; otherwise the result and the dispatched jobs are those of Batch |
| Ingest.ValidateAll | backend/app/api/routes/ingest.py:195 | the body is refused exactly when some request fails validation; otherwise each request is validated in place |
| Ingest.SubmitAll | backend/app/api/routes/ingest.py:210-216 | the loop gives the dispatched jobs and the answer of the batch over all the requests |
| Ingest.Validated | backend/app/api/routes/ingest.py:195 | the validated body has each request's validated form in its place |
| InsightsRoute.ParseSentiment | backend/app/api/routes/insights.py:25-30 | a parsed value is the wire value of the sentiment it names |
| InsightsRoute.InsightStore.constructor | backend/app/api/routes/insights.py:143 | the store starts empty |
| InsightsRoute.InsightStore.StoreInsight | backend/app/api/routes/insights.py:146-150 | the insight is appended to its job's list, which is created on first use; no other job changes |
| InsightsRoute.InsightStore.InsightsForJob | backend/app/api/routes/insights.py:153-155 | a job's insights are its stored list |
| InsightsRoute.InsightsFor | backend/app/api/routes/insights.py:155 | a job with no list has no insights, and otherwise its insights are its list |
| InsightsRoute.JobStatusLabel | backend/app/api/routes/insights.py:199-204 | a failed job is "error", a completed or unknown one "complete", and any other "partial" |
| InsightsRoute.FilterInsights | backend/app/api/routes/insights.py:207-218 | the filtered list is never longer than the stored one and holds exactly the stored insights that pass every active filter |
| InsightsRoute.FilterConcat | backend/app/api/routes/insights.py:207-218 | filtering distributes over concatenation, so it keeps the stored order |
| InsightsRoute.GetInsights | backend/app/api/routes/insights.py:162-235 | out-of-bounds paging is 422; 404 exactly when the job is unknown and has no insights; otherwise the page of the filtered list, its total and page count, and the job's status label |
| InsightsRoute.SliceOfFiltered | backend/app/api/routes/insights.py:220-224 | every insight of a slice of the filtered list is stored and passes the filters |
| InsightsRoute.GetInsightsSound | backend/app/api/routes/insights.py:206-235 | every insight on a page is stored and passes the filters, and a page holds at most `limit` of them |
| InsightsRoute.CountSentiment | backend/app/api/routes/insights.py:266 | a sentiment count never exceeds the number of posts |
| InsightsRoute.SentimentCountsSum | backend/app/api/routes/insights.py:257-266 | the four sentiment counts add up to the number of posts |
| InsightsRoute.CountSpam | backend/app/api/routes/insights.py:282-283 | the spam count never exceeds the number of posts |
| InsightsRoute.CountDuplicates | backend/app/api/routes/insights.py:284-285 | the duplicate count never exceeds the number of posts |
| InsightsRoute.EntityKeys | backend/app/api/routes/insights.py:273-275 | each entity is counted under its `type:name` key, in order |
| InsightsRoute.TopicCounts | backend/app/api/routes/insights.py:268-270 | the topic tally is a consistent counting dictionary |
| InsightsRoute.EntityCounts | backend/app/api/routes/insights.py:272-275 | the entity tally is a consistent counting dictionary |
| InsightsRoute.LanguageCounts | backend/app/api/routes/insights.py:277-279 | the language tally is a consistent counting dictionary |
| InsightsRoute.Rate | backend/app/api/routes/insights.py:314-315 | a rate lies in [0, 1], is 0 for no posts, and otherwise times the total gives back the count |
| InsightsRoute.PrefixStep | backend/app/api/routes/insights.py:264-285 | one more post adds exactly its own contribution to every tally |
| InsightsRoute.LanguageTotal | backend/app/api/routes/insights.py:277-279 | the language counts add up to the number of posts |
| InsightsRoute.SummarySentiments | backend/app/api/routes/insights.py:257-310 | the sentiment breakdown adds up to the total number of posts |
| InsightsRoute.SummaryLanguages | backend/app/api/routes/insights.py:302-306 | the ranked language counts add up to the number of posts |
| InsightsRoute.SummaryBounds | backend/app/api/routes/insights.py:289-315 | the top lists hold min(10, distinct topics or entities) entries, largest first, and both rates lie in [0, 1] |
| InsightsRoute.SummaryTopicBounds | backend/app/api/routes/insights.py:289-293 | top_topics holds min(10, distinct topics) entries, largest first |
| InsightsRoute.SummaryEntityBounds | backend/app/api/routes/insights.py:295-299 | top_entities holds min(10, distinct entities) entries, largest first |
| InsightsRoute.SummaryRates | backend/app/api/routes/insights.py:313-314 | the spam and duplicate rates lie in [0, 1] |
| InsightsRoute.SummaryTopTopics | backend/app/api/routes/insights.py:289-293 | a topic missing from top_topics occurs no more often than any listed topic |
| InsightsRoute.SummaryTopEntities | backend/app/api/routes/insights.py:295-299 | an entity missing from top_entities occurs no more often than any listed entity |
| InsightsRoute.GetInsightsSummary | backend/app/api/routes/insights.py:238-316 | a job without insights is 404; otherwise the loop yields the summary of all its posts |
| Nlp.Classify | backend/app/services/nlp_service.py:132-142 | mixed exactly when both the positive and the negative share exceed 0.2; otherwise positive, negative or neutral exactly as the compound score clears +0.05, -0.05 or neither |
| Nlp.VaderSentiment | backend/app/services/nlp_service.py:128-152 | the VADER result carries the classified type, the compound score and the raw scores, with a confidence in [0.5, 1] that is 1 exactly when the compound score is at least 0.5 in magnitude |
| Nlp.ClassifyMirror | backend/app/services/nlp_service.py:132-145 | negating the compound score and swapping the positive and negative shares swaps positive and negative and keeps the confidence |
| Nlp.FallbackSentiment | backend/app/services/nlp_service.py:157-170 | positive (0.5) when more distinct positive than negative words occur, negative (-0.5) in the opposite case, neutral (0.0) otherwise, always with confidence 0.3 |
| Nlp.FallbackOnlyWordsMatter | backend/app/services/nlp_service.py:162-164 | the fallback depends only on the set of words, not on how often each occurs |
| Nlp.SentimentOf | backend/app/services/nlp_service.py:126-155 | VADER decides when it is loaded, the word-list fallback otherwise |
| Nlp.Kept | backend/app/services/nlp_service.py:200-208 | the loop keeps at most one entity per name, none already seen, none of one character, all with confidence 0.85 |
| Nlp.FirstOccurrenceTail | backend/app/services/nlp_service.py:201-203 | a first occurrence in the tail after a differently named head is a first occurrence in the whole list |
| Nlp.KeptFirstOccurrence | backend/app/services/nlp_service.py:200-208 | each kept entity is the first occurrence of its name, with the type mapped from that occurrence's label |
| Nlp.KeptComplete | backend/app/services/nlp_service.py:200-208 | every name of more than one character not seen before is kept |
| Nlp.EntitiesOf | backend/app/services/nlp_service.py:176-212 | at most 20 entities, and none when spaCy is not loaded |
| Nlp.KeptStep | backend/app/services/nlp_service.py:201-208 | one iteration of the entity loop, as a step of the kept list |
| Nlp.KeepEntities | backend/app/services/nlp_service.py:200-208 | the loop returns exactly the kept entities |
| Nlp.ExtractEntities | backend/app/services/nlp_service.py:172-212 | the loop's result is exactly `EntitiesOf`: first occurrences of names longer than one character, in engine order, labels mapped, at most 20 |
| Nlp.RunAt | backend/app/services/nlp_service.py:236 | the run at the start of the text is a prefix of word characters followed by a non-word character or the end |
| Nlp.Runs | backend/app/services/nlp_service.py:236 | every run is a non-empty stretch of word characters |
| Nlp.TokenRuns | backend/app/services/nlp_service.py:236 | the tokens are exactly the runs that are lowercase words of at least three letters |
| Nlp.Tokens | backend/app/services/nlp_service.py:236 | every token is a word of at least three lowercase letters |
| Nlp.NonStop | backend/app/services/nlp_service.py:239-240 | the counted words are exactly the tokens that are not stopwords |
| Nlp.NonStopStep | backend/app/services/nlp_service.py:239-240 | one more token adds itself to the counted words exactly when it is not a stopword |
| Nlp.CountedIn | backend/app/services/nlp_service.py:237-241 | the frequency table is a consistent counting dictionary |
| Nlp.CountedStep | backend/app/services/nlp_service.py:239-241 | one more token bumps its count exactly when it is not a stopword |
| Nlp.KeywordCounter | backend/app/services/nlp_service.py:236-241 | the keyword frequency table is a consistent counting dictionary |
| Nlp.Words | backend/app/services/nlp_service.py:245 | the keywords are the words of the ranked entries, in order |
| Nlp.KeywordsAvoiding | backend/app/services/nlp_service.py:243-245 | exactly min(15, number of counted words) keywords |
| Nlp.Keywords | backend/app/services/nlp_service.py:214-245 | at most 15 keywords, with the source's stopword list |
| Nlp.CountKeywords | backend/app/services/nlp_service.py:236-245 | the counting loop yields exactly `KeywordsAvoiding`, the top 15 of the stable frequency ranking |
| Nlp.ExtractKeywords | backend/app/services/nlp_service.py:214-245 | the method yields exactly `Keywords`: `KeywordsAvoiding` with the source's stopwords |
| Nlp.KeywordsAreTokens | backend/app/services/nlp_service.py:236-245 | every keyword is a token of the text of at least three lowercase letters and not a stopword |
| Nlp.KeywordsDistinct | backend/app/services/nlp_service.py:237-245 | no keyword is listed twice |
| Nlp.KeywordCounts | backend/app/services/nlp_service.py:237-241 | each word's count is its number of occurrences among the counted tokens |
| Nlp.KeywordsByFrequency | backend/app/services/nlp_service.py:244-245 | keywords come in non-increasing frequency |
| Nlp.KeywordTies | backend/app/services/nlp_service.py:241-245 | the table lists words in order of first occurrence; the stable sort keeps that order among words of equal frequency; and the keywords of each frequency are the first words of that frequency in it |
| Nlp.KeywordsCount | backend/app/services/nlp_service.py:236-245 | there are min(15, number of distinct counted tokens) keywords |
| Nlp.KeywordsMostFrequent | backend/app/services/nlp_service.py:236-245 | a counted token that is not a keyword occurs no more often than any keyword |
| Nlp.LeftOutKey | backend/app/services/nlp_service.py:239-245 | a counted token that is not a keyword is a key of the table missing from the top 15 entries |
| Nlp.AnyHit | backend/app/services/nlp_service.py:271 | a row matches exactly when one of its words occurs in the lowercased text or among the keywords |
| Nlp.MatchBelow | backend/app/services/nlp_service.py:270-272 | the matching rows are collected in increasing table order, and every matching row is collected |
| Nlp.Names | backend/app/services/nlp_service.py:272 | the collected topics are the names of the matching rows |
| Nlp.TopicsIn | backend/app/services/nlp_service.py:274 | the topic list is never empty and holds at most five names |
| Nlp.TopicsOf | backend/app/services/nlp_service.py:247-274 | the same, with the source's topic table |
| Nlp.NamesStep | backend/app/services/nlp_service.py:270-272 | one more row adds its name exactly when it matches |
| Nlp.MatchTopics | backend/app/services/nlp_service.py:253-274 | the loop over the topic table yields exactly `TopicsIn`: matching topics in table order, at most five, or "General" when none match |
| Nlp.DetectTopics | backend/app/services/nlp_service.py:247-274 | the method yields the topics of the text |
| Nlp.TopicsGeneralIff | backend/app/services/nlp_service.py:270-274 | the result is just "General" exactly when no row matches |
| Nlp.TopicsInTableOrder | backend/app/services/nlp_service.py:270-274 | when some row matches, the topics are the names of the first matching rows, at most five, in table order |
| Nlp.SomeMatch | backend/app/services/nlp_service.py:270-272 | a matching row makes the topic list non-empty before the "General" default |
| Nlp.FirstMatches | backend/app/services/nlp_service.py:274 | the first matches keep increasing table order and all match |
| Nlp.TakeNames | backend/app/services/nlp_service.py:274 | truncating the names is naming the truncated matches |
| Nlp.TopicTableHasNoGeneral | backend/app/services/nlp_service.py:257-268 | no row of the topic table is called "General", so the default cannot be confused with a match |
| Nlp.LanguageOf | backend/app/services/nlp_service.py:276-310 | English with confidence 0.5 when no detector is loaded, the text has at most 10 characters or detection fails; otherwise the detected code, its name, and the first probability or 0.9 |
| Nlp.Analyze | backend/app/services/nlp_service.py:72-98 | blank text gives the empty result; any other text is cleaned and then analysed by every step, keywords before topics |
| Nlp.AnalyzeTopicsEmptyIffBlank | backend/app/services/nlp_service.py:79-108 | the topic list is empty exactly for blank text, whose result is neutral with confidence 0, no entities or keywords, and an unknown language |
| Ocr.Settings | backend/app/services/ocr_service.py:207-232 | an unknown quality gets the balanced options; contrast enhancement is always on; binarising implies denoising, deskewing and border removal |
| Ocr.SettingsAgree | backend/app/services/ocr_service.py:208-232 | the OCR service's quality table gives exactly the preprocessor's own preset for every quality string |
| Ocr.Fallback | backend/app/services/ocr_service.py:241-273 | a Tesseract failure gives the empty result; otherwise the stripped text at confidence 0.7, with one region holding it exactly when it is not empty |
| Ocr.Kept | backend/app/services/ocr_service.py:156-157 | the kept detections are no more than the input, and every one is above the 0.3 floor |
| Ocr.TextsOf | backend/app/services/ocr_service.py:158 | one text per kept detection |
| Ocr.RegionsOf | backend/app/services/ocr_service.py:160-164 | one region per kept detection |
| Ocr.RegionsOfAt | backend/app/services/ocr_service.py:160-164 | each region is built from the detection at its own position |
| Ocr.FromDetections | backend/app/services/ocr_service.py:152-172 | one region per kept detection, and the empty result when nothing is kept |
| Ocr.FromDetectionsRegions | backend/app/services/ocr_service.py:156-164 | every region is a kept detection above the floor, with its box exactly where boxes are asked for |
| Ocr.SumConfidenceBounds | backend/app/services/ocr_service.py:166 | the sum of n confidences in (0.3, 1] lies in (0.3 n, n] |
| Ocr.MeanBetween | backend/app/services/ocr_service.py:166 | a mean of values in (lo, 1] lies in (lo, 1] |
| Ocr.ConfidenceMean | backend/app/services/ocr_service.py:166 | the mean of kept confidences lies in (0.3, 1] |
| Ocr.FromDetectionsConfidence | backend/app/services/ocr_service.py:166 | when something is kept and every confidence is at most 1, the source's confidence lies in (0.3, 1] |
| Ocr.KeptFrom | backend/app/services/ocr_service.py:156-157 | every kept detection comes from the reader's output |
| Ocr.KeptAll | backend/app/services/ocr_service.py:156-157 | when every detection clears the floor, all are kept |
| Ocr.KeptBounded | backend/app/services/ocr_service.py:156-159 | kept confidences stay at most 1 when the reader's do |
| Ocr.BoxedRegions | backend/app/services/ocr_service.py:160-164 | regions carry a box exactly when asked for |
| Ocr.KeptNext | backend/app/services/ocr_service.py:156-157 | one more detection is kept exactly when its confidence exceeds 0.3 |
| Ocr.KeptSnoc | backend/app/services/ocr_service.py:158-164 | a kept detection appends its text, its region and its confidence |
| Ocr.ProcessDetections | backend/app/services/ocr_service.py:152-172 | the loop over the detections yields exactly `FromDetections`: the text and regions of the detections above 0.3 confidence, with their mean confidence |
| Ocr.Preprocessed | backend/app/services/ocr_service.py:140-146 | the original bytes when the preprocessor is missing or raises, its output otherwise |
| Ocr.PreprocessedByDefault | backend/app/services/ocr_service.py:194-239 | with the default preprocessor, the bytes read are its outcome under the quality's settings, or the original bytes when it fails |
| Ocr.ExtractFromSource | backend/app/services/ocr_service.py:117-176 | the fallback when the reader is missing or loading or reading raises; otherwise the kept detections of the preprocessed image, with boxes |
| Ocr.Contributing | backend/app/services/ocr_service.py:101 | the contributing results are no more than the input, and each has text |
| Ocr.ContributingFrom | backend/app/services/ocr_service.py:101-105 | every contributing result is one of the sources' results |
| Ocr.ContributingBounded | backend/app/services/ocr_service.py:101-104 | contributing confidences stay within [0, 1] when the sources' do |
| Ocr.ContributingSnoc | backend/app/services/ocr_service.py:101-105 | one more result contributes exactly when it has text |
| Ocr.AppendResult | backend/app/services/ocr_service.py:102-105 | a contributing result appends its text, its regions and its confidence to the accumulators |
| Ocr.ResultTexts | backend/app/services/ocr_service.py:102 | one text per contributing result |
| Ocr.SourceResultsAt | backend/app/services/ocr_service.py:97-99 | each source gets its own single-source result, at its own position |
| Ocr.SourceResultsNext | backend/app/services/ocr_service.py:97-99 | one more source adds its own result at the end |
| Ocr.ExtractTextOf | backend/app/services/ocr_service.py:89-90 | no sources give the empty result |
| Ocr.CollectStep | backend/app/services/ocr_service.py:101-105 | one round of the loop keeps the accumulators describing the contributing results so far |
| Ocr.CollectedAggregate | backend/app/services/ocr_service.py:111-115 | the accumulators yield the aggregate of the results: joined texts, mean confidence, all regions |
| Ocr.Accumulate | backend/app/services/ocr_service.py:101-105 | a result with text joins the accumulators, one without leaves them unchanged |
| Ocr.CollectSource | backend/app/services/ocr_service.py:97-109 | one source is read and its result collected |
| Ocr.CollectAll | backend/app/services/ocr_service.py:97-109 | the accumulators describe the results of all the sources looked at |
| Ocr.ExtractText | backend/app/services/ocr_service.py:79-115 | the loop over the sources yields exactly `ExtractTextOf`: the space-joined texts of the first five sources that give text, their regions in order and their mean confidence |
| Ocr.FirstFiveOnly | backend/app/services/ocr_service.py:97 | sources after the fifth do not affect the result |
| Ocr.NothingContributes | backend/app/services/ocr_service.py:101-115 | when no source yields text the result is empty with confidence 0 |
| Ocr.SingleSource | backend/app/services/ocr_service.py:89-115 | a single source with text is the whole result |
| Ocr.AggregateSingle | backend/app/services/ocr_service.py:111-115 | the aggregate of one result with text is that result |
| Ocr.ContributingIncludes | backend/app/services/ocr_service.py:101 | every result with text contributes |
| Ocr.ResultTextsAt | backend/app/services/ocr_service.py:102 | the texts are those of the contributing results, in order |
| Ocr.AggregateContains | backend/app/services/ocr_service.py:101-112 | the text of every source that yields text appears in the combined text |
| Ocr.TotalConfidenceBound | backend/app/services/ocr_service.py:104 | the total of n confidences in [0, 1] lies in [0, n] |
| Ocr.AggregateConfidence | backend/app/services/ocr_service.py:113 | the combined confidence lies in [0, 1] when every source's does |
| Ocr.ExtractFromBytes | backend/app/services/ocr_service.py:275-314 | empty when the reader is missing or raises; regions carry no box |
| RateLimiter.Purged | backend/app/core/rate_limiter.py:59-60 | exactly the members whose score lies outside [0, windowStart] survive, with their scores |
| RateLimiter.EffectiveLimit | backend/app/core/rate_limiter.py:51 | an explicit non-zero limit wins; a missing or zero limit falls back to the default |
| RateLimiter.Check | backend/app/core/rate_limiter.py:51-90 | allowed exactly when the members left in the window plus the cost fit the limit; the info reports that count, the clamped remaining budget and the reset time; the window keeps the new request only when it is allowed |
| RateLimiter.TierLimit | backend/app/core/rate_limiter.py:122-148 | pro is 200, enterprise 1000, and every other tier gets the free limit of 50 |
| RateLimiter.DefaultTierLookup | backend/app/core/rate_limiter.py:137-139 | the default lookup puts every tenant on the free limit |
| RateLimiter.NoOpCheck | backend/app/core/rate_limiter.py:185-186 | the no-op limiter always allows and reports limits of -1 |
| RateLimiter.NoOpUsage | backend/app/core/rate_limiter.py:188-189 | the no-op limiter reports the tenant as disabled |
| RateLimiter.SubsetCard | backend/app/core/rate_limiter.py:63 | a subset of the window is no larger than the window |
| RateLimiter.CountedSurvive | backend/app/core/rate_limiter.py:59-63 | requests already admitted within the current window survive the next request's purge and are counted by it |
| RateLimiter.BoundStep | backend/app/core/rate_limiter.py:63-88 | one cost-1 request keeps the admitted requests within the limit, adding itself only when allowed |
| RateLimiter.RunBoundFrom | backend/app/core/rate_limiter.py:34-90 | over a run of requests inside one window, those admitted plus those already in never exceed the limit |
| RateLimiter.RunNeverExceedsLimit | backend/app/core/rate_limiter.py:34-90 | within one window, cost-1 requests at increasing times are allowed at most `limit` times, whatever the window held before |
| RateLimiter.TenantRateLimiter.constructor | backend/app/core/rate_limiter.py:21-32 | the given default limit and window, and no tenant has requests yet |
| RateLimiter.TenantRateLimiter.Default | backend/app/core/rate_limiter.py:128-135 | the tiered limiter's base has the default 100 requests per 60 seconds |
| RateLimiter.TenantRateLimiter.CheckRateLimit | backend/app/core/rate_limiter.py:34-90 | the answer and info are the check against the tenant's previous window; only that tenant's window changes, to the check's new window |
| RateLimiter.TenantRateLimiter.CheckTierRateLimit | backend/app/core/rate_limiter.py:141-157 | the check runs with the tier's limit and the info gains the tier |
| RateLimiter.TenantRateLimiter.GetUsage | backend/app/core/rate_limiter.py:92-108 | the tenant's window is purged, and the usage reports its size against the default limit with a non-negative remainder |
| RateLimiter.TenantRateLimiter.ResetLimit | backend/app/core/rate_limiter.py:110-114 | the tenant's key is gone, no other tenant changes, and the answer is true |
| Scheduled.ErrorType | backend/app/workers/scheduled.py:171 | a decoded value that is not an object, or whose error is not an object, makes the lookup raise; a missing error gives the empty type |
| Scheduled.CountReplayable | backend/app/workers/scheduled.py:165-180 | the replayable count never exceeds the entries reviewed |
| Scheduled.ReviewWindow | backend/app/workers/scheduled.py:163 | the review reads the first ten entries of the queue, or all of a shorter queue |
| Scheduled.DlqReview | backend/app/workers/scheduled.py:141-192 | a failed read is reported as an error; "empty" exactly for an empty queue; otherwise the full length, the number reviewed (the smaller of ten and the length), and replayable plus permanent equal to it, replayable counting exactly the reviewed entries that decode with a network or rate-limit error |
| Scheduled.ProcessDeadLetterQueue | backend/app/workers/scheduled.py:141-192 | the counting loop yields exactly the report `DlqReview` describes, and the queue is only read |
| Scheduled.CountReplayableSpec | backend/app/workers/scheduled.py:168-180 | the loop's counter is the number of reviewed positions whose entry is replayable |
| Scheduled.UnparsableIsPermanent | backend/app/workers/scheduled.py:179-180 | entries that do not decode are never counted as replayable |
| Scheduled.EventCleanupCutoff | backend/app/workers/scheduled.py:94 | the cutoff lies before now |
| Scheduled.EventCleanupAge | backend/app/workers/scheduled.py:94 | an event falls before the cutoff exactly when it is more than seven days old |
| Scraper.IndexOf | backend/app/services/scraper_service.py:12 | the first position of the character, or none when it does not occur |
| Scraper.Host | backend/app/services/scraper_service.py:58 | the network location is the longest prefix without '/', '?' or '#', cut at the first of them |
| Scraper.UrlParts | backend/app/services/scraper_service.py:137-138 | a URL built as scheme, "://", host and path parses back into that scheme and host |
| Scraper.ConcatParts | backend/app/services/scraper_service.py:138 | the two halves of a concatenation are recovered by slicing |
| Scraper.SeparatorParts | backend/app/services/scraper_service.py:137-138 | a URL whose first ':' opens "://" has the scheme before it and the host after it |
| Scraper.IndexOfAfter | backend/app/services/scraper_service.py:137 | the first ':' of a URL built from a colon-free scheme is the separator's |
| Scraper.HostOf | backend/app/services/scraper_service.py:58 | a host followed by a path has that host as its network location |
| Scraper.FirstPlatformSpec | backend/app/services/scraper_service.py:179-199 | the platform is that of the first pattern in table order that occurs in the domain, or "web" when none occurs |
| Scraper.ContainingXComIsTwitter | backend/app/services/scraper_service.py:183-197 | substring matching: any domain containing "x.com" but not "twitter.com" is twitter |
| Scraper.NoPatternIsWeb | backend/app/services/scraper_service.py:195-199 | a domain containing none of the patterns is "web" |
| Scraper.LastOf | backend/app/services/scraper_service.py:121-127 | with no meta tag of a kind, that field stays None |
| Scraper.LastOfIndex | backend/app/services/scraper_service.py:121-127 | the last meta tag of a kind decides its field, whatever came before it |
| Scraper.CollectMeta | backend/app/services/scraper_service.py:116-127 | the loop over the meta tags leaves description, author and published time at their last tag's content |
| Scraper.Absolute | backend/app/services/scraper_service.py:136-138 | a root-relative source gets the page's scheme and host prepended and keeps its path; any other source is stored as it is |
| Scraper.Images | backend/app/services/scraper_service.py:130-139 | no more images than sources |
| Scraper.ImagesSpec | backend/app/services/scraper_service.py:132-139 | every stored image is the absolute form of a source that is not `data:`, and every such source is stored |
| Scraper.CollectImages | backend/app/services/scraper_service.py:130-139 | the loop over the image tags yields exactly `Images`: the absolute form of every non-`data:` source, in order |
| Scraper.PageRecord | backend/app/services/scraper_service.py:141-154 | the record of a fetched page: its URL, an id of at most 16 characters, a prefix of the text of at most 50000 characters (all of a shorter text), at most ten images in page order and none when images are not asked for, and the meta fields of their last tags |
| Scraper.ScrapeUrl | backend/app/services/scraper_service.py:81-154 | a fetch or parse error comes back as that error; otherwise the page record |
| Scraper.WaitTime | backend/app/services/scraper_service.py:160-165 | the wait is never negative, and is zero once the minimum spacing has already passed |
| Scraper.WaitSpacing | backend/app/services/scraper_service.py:156-167 | with a positive rate, a request to a domain starts at least 1/rate after its previous one |
| Scraper.RecordFor | backend/app/services/scraper_service.py:55-77 | a zero rate makes the request fail before fetching; a fetch error gives an error record; otherwise the page record; the record names its URL |
| Scraper.RecordsFollowUrls | backend/app/services/scraper_service.py:53-79 | each record belongs to the URL at its position |
| Scraper.Waits | backend/app/services/scraper_service.py:55-58 | one wait per URL |
| Scraper.LastTimesOtherDomains | backend/app/services/scraper_service.py:167 | a domain none of the URLs is on keeps its last-request time |
| Scraper.LastTimesOfLast | backend/app/services/scraper_service.py:167 | after a URL its domain's last-request time is the time after that wait |
| Scraper.ProgressStep | backend/app/services/scraper_service.py:55-77 | one iteration of the URL loop keeps records, waits and request times equal to their specification over the URLs so far |
| Scraper.RecordsSnoc | backend/app/services/scraper_service.py:55-77 | one more URL appends its own record |
| Scraper.TimesSnoc | backend/app/services/scraper_service.py:58 | one more URL updates its own domain's request time |
| Scraper.ProgressDone | backend/app/services/scraper_service.py:79 | at the end of the loop the records, waits and request times are those of all the URLs |
| Scraper.ScraperService.constructor | backend/app/services/scraper_service.py:27-36 | the given rate and no domain requested yet |
| Scraper.ScraperService.RateLimit | backend/app/services/scraper_service.py:156-167 | with a zero rate the division raises and nothing is recorded; otherwise the wait from the domain's last request (0 for a new domain) and the domain's time set to now after the wait |
| Scraper.ScraperService.ScrapeUrls | backend/app/services/scraper_service.py:38-79 | one record per URL in order, an error record where the scrape raised, and the request times updated URL by URL |
| Scraper.ScraperService.ScrapeTwitterProfile | backend/app/services/scraper_service.py:213-222 | the profile page goes through the URL scraper with images: the rate is unchanged, and the records, waits and request times are those of a one-URL run |
| Scraper.LowerUnchanged | backend/app/services/scraper_service.py:181 | lower-casing leaves a string without capitals as it is |
| Scraper.TwitterUrlShape | backend/app/services/scraper_service.py:221 | the profile URL is scheme, "://", host and the user's path |
| Scraper.TwitterProfileHost | backend/app/services/scraper_service.py:221 | the profile URL's network location is twitter.com, whatever the user name |
| Scraper.TwitterProfilePlatform | backend/app/services/scraper_service.py:179-199 | a profile URL is detected as twitter, whatever the user name |
| Scraper.UnixToIso | backend/app/services/scraper_service.py:300-304 | None exactly for a missing or zero timestamp, else its ISO form |
| Scraper.TimestampOf | backend/app/services/scraper_service.py:259 | a falsy created time gives no timestamp, and a number its ISO form |
| Scraper.PostOf | backend/app/services/scraper_service.py:250-268 | a post names its subreddit and a reddit.com URL; a child that is not an object makes its `.get` raise |
| Scraper.PostsMeans | backend/app/services/scraper_service.py:250-270 | the posts exist exactly when every child gives one, and then there is one post per child, in order |
| Scraper.RedditContent | backend/app/services/scraper_service.py:256 | a post's content is its title, a space and its text |
| Scraper.RedditOutcome | backend/app/services/scraper_service.py:224-270 | a fetch error is passed on, a response without a child list is malformed, and otherwise there is one post per child |
| Scraper.PostsOutcome | backend/app/services/scraper_service.py:250-270 | a successful collection has one post per child |
| Scraper.ScrapeRedditSubreddit | backend/app/services/scraper_service.py:224-270 | the subreddit's JSON listing is fetched and its outcome returned |
| Scraper.CollectPosts | backend/app/services/scraper_service.py:248-270 | the loop over the children yields exactly `PostsOutcome`: one post per child in order, or a malformed-data error when some child gives no post |
| Scraper.PostsStep | backend/app/services/scraper_service.py:250-268 | one more child appends its post, or makes the whole list raise |
| Scraper.PostsFail | backend/app/services/scraper_service.py:250-268 | once a child raises, the whole list raises |
| Scraper.ScrapeYoutubeVideo | backend/app/services/scraper_service.py:272-298 | a fetch error is passed on and a non-object response is malformed; otherwise the record carries the video id and watch URL, empty content and no title when the title is missing, and the thumbnail as its only media exactly when there is one |
| SearchRoute.ValidateQuery | backend/app/api/routes/search.py:42-51 | 422 exactly when `q` is missing or empty, `limit` lies outside 1..100 or `offset` is negative; otherwise the query with limit 50, offset 0 and spam excluded by default |
| SearchRoute.Entry | backend/app/api/routes/search.py:64-71 | each parameter adds at most one filter, and the one it adds is its own |
| SearchRoute.RankedConcat | backend/app/api/routes/search.py:63-71 | filters added in key order, one block after another, stay in key order |
| SearchRoute.EntryFacts | backend/app/api/routes/search.py:64-71 | each parameter's filter sits at its key's rank and carries its own value |
| SearchRoute.FaithfulConcat | backend/app/api/routes/search.py:63-71 | joining blocks of faithful filters keeps every filter faithful |
| SearchRoute.RouteEntriesMeans | backend/app/api/routes/search.py:62-71 | every filter carries its parameter's value, the keys come in the order sentiment_type, platform, language, is_spam, and there is one per truthy parameter |
| SearchRoute.EntriesJoined | backend/app/api/routes/search.py:63-71 | the four conditional assignments together give faithful filters in key order, one per truthy parameter |
| SearchRoute.EntriesRanked | backend/app/api/routes/search.py:63-71 | the four blocks together are in key order |
| SearchRoute.RankedConcat4 | backend/app/api/routes/search.py:63-71 | four blocks in increasing rank ranges stay in key order when joined |
| SearchRoute.EntriesFaithful | backend/app/api/routes/search.py:63-71 | the four blocks together carry their parameters' values |
| SearchRoute.Spelled | backend/app/api/routes/search.py:65-71 | each filter key is spelled as the search service receives it |
| SearchRoute.SpelledConcat | backend/app/api/routes/search.py:63-71 | spelling the keys distributes over concatenation |
| SearchRoute.EntryPresent | backend/app/api/routes/search.py:64-71 | every filter a parameter adds is in the dict, behind the filters of the keys before it |
| SearchRoute.ExcludeSpamLast | backend/app/api/routes/search.py:70-71 | spam is excluded exactly when the filters end with `is_spam = False` |
| SearchRoute.SortList | backend/app/api/routes/search.py:74 | a one-element sort list exactly when a sort is given |
| SearchRoute.SearchAnswer | backend/app/api/routes/search.py:41-90 | 422 exactly for out-of-bounds parameters; otherwise the search's hits, total and time with the query echoed, all empty or zero when no search client is configured |
| SearchRoute.BuildFilters | backend/app/api/routes/search.py:62-71 | the conditional assignments yield exactly `RouteFilters`: sentiment type, platform, language and spam keys, in that order, each only when given |
| SearchRoute.SearchInsights | backend/app/api/routes/search.py:41-90 | the endpoint's answer is exactly `SearchAnswer`: 422 for out-of-bounds parameters, otherwise the search result with the query echoed |
| SearchRoute.DefaultRequest | backend/app/api/routes/search.py:42-83 | with only `q` given, the search asks for 50 results from the first, excluding spam and with no sort |
| SearchRoute.TenantFirst | backend/app/api/routes/search.py:76-83 | a tenant's clause opens the filter string, and with spam excluded the string holds `is_spam = false` |
| SearchRoute.SpamClause | backend/app/api/routes/search.py:70-83 | excluding spam puts the `is_spam = false` clause in the filter string |
| SearchRoute.UnavailableIsEmpty | backend/app/api/routes/search.py:76-90 | with no search client, a valid query gets no hits, a total of 0 and a time of 0 |
| SearchService.ObjectCount | backend/app/services/search_service.py:168 | the entity objects are no more than the entries, and all of them when every entry is an object |
| SearchService.EntityNames | backend/app/services/search_service.py:167-168 | the names exist exactly when every entity object's name is a string; then one name per object, in order, and none when no entry is an object |
| SearchService.Strings | backend/app/services/search_service.py:172-173 | a topic list joins exactly when every topic is a string, and then yields them in order |
| SearchService.NestedSource | backend/app/services/search_service.py:187-190 | the nested field wins whenever the outer field is an object; otherwise the flat field is taken as it is |
| SearchService.PrepareDocument | backend/app/services/search_service.py:160-197 | a document exists exactly when the entities and topics flatten; it carries the flattened entity and topic texts and the nested-or-flat author, sentiment, score and platform |
| SearchService.PrepareEmpty | backend/app/services/search_service.py:177-197 | an insight with no keys flattens to the documented defaults: empty texts and lists, no spam and no duplicate |
| SearchService.EntitiesWithoutObjects | backend/app/services/search_service.py:168 | entries none of which is an object flatten to an empty text |
| SearchService.EntitiesAllNamed | backend/app/services/search_service.py:168 | entity objects with string names flatten to their names, space-joined in order |
| SearchService.PrepareAllMeans | backend/app/services/search_service.py:142-145 | the batch prepares exactly when every insight does, and then yields their documents in order |
| SearchService.IndexInsights | backend/app/services/search_service.py:130-158 | nothing is sent without a client or insights; the prepared documents are sent exactly when every insight prepares; the answer is true exactly when they were sent and indexed |
| SearchService.IndexInsight | backend/app/services/search_service.py:121-128 | one insight is indexed as a batch of one, so the empty guard never applies |
| SearchService.Clause | backend/app/services/search_service.py:234-239 | every clause starts with its key |
| SearchService.ClauseQuotesStrings | backend/app/services/search_service.py:238-239 | a string value is quoted as it is, with no escaping |
| SearchService.FilterParts | backend/app/services/search_service.py:229-239 | the tenant's clause comes first when a tenant is given, then one clause per filter in order |
| SearchService.FilterString | backend/app/services/search_service.py:241 | no filter string exactly when there is no tenant and no filter |
| SearchService.FilterStringClauses | backend/app/services/search_service.py:229-241 | the filter string starts with the tenant clause when a tenant is given, and holds every filter's clause |
| SearchService.FilterStringSingle | backend/app/services/search_service.py:241 | a single clause is the whole filter string |
| SearchService.SearchOutcome | backend/app/services/search_service.py:199-271 | no client gives the unavailable error with no hits and a total of 0; a found result echoes the query and carries the engine's hits, with the estimated total when reported and the hit count otherwise; a failure with a client is the engine's error |
| SearchService.Search | backend/app/services/search_service.py:199-271 | the clause-building loop and the engine call yield exactly `SearchOutcome`: the unavailable error without a client, otherwise the engine's hits with the reported or counted total |
| SearchService.DeleteFilter | backend/app/services/search_service.py:280 | deletion filters by exactly the clause a search would use for the job id |
| SearchService.DeleteByJob | backend/app/services/search_service.py:273-285 | without a client the answer is false; with one it is true exactly when the deletion succeeds |
| Tasks.Imported | backend/app/workers/tasks.py:60-63 | submitted items are taken over one for one, in order |
| Tasks.RouteOf | backend/app/workers/tasks.py:218-235 | an account starting with "@" is skipped, one starting with "r/" is scraped as that subreddit, any other is scraped as a URL |
| Tasks.ScrapedFromAppend | backend/app/workers/tasks.py:218-238 | scraping a concatenation of account lists yields the items of the first list followed by those of the second |
| Tasks.HandlesScrapeNothing | backend/app/workers/tasks.py:229-231 | a list made only of social handles scrapes no items |
| Tasks.ScrapeContent | backend/app/workers/tasks.py:194-243 | the loop returns nothing exactly when there is no account list, and otherwise the concatenated items of every account in order |
| Tasks.ProcessItem | backend/app/workers/tasks.py:79-95 | an item survives exactly when NLP succeeds and, if it carries media, OCR succeeds; the survivor keeps the item and NLP result and has OCR text exactly when it had media |
| Tasks.Survivors | backend/app/workers/tasks.py:77-103 | the loop keeps at most as many items as it was given |
| Tasks.ItemProgress | backend/app/workers/tasks.py:98 | the per-item progress lies between 30 and 80 and the last item reports 80 |
| Tasks.DivMonotone | backend/app/workers/tasks.py:98 | integer division by a positive count is monotone, as the progress formula needs |
| Tasks.MulMonotone | backend/app/workers/tasks.py:98 | multiplying by a natural keeps the order, as the progress formula needs |
| Tasks.MulStrict | backend/app/workers/tasks.py:98 | a strict order of products by a positive factor is a strict order of the factors |
| Tasks.ItemProgressMonotone | backend/app/workers/tasks.py:98 | a later item never reports less progress than an earlier one |
| Tasks.Updated | backend/app/workers/tasks.py:364-382 | an update sets status, progress and update time; each of item total, processed count, processing time and error message takes the given value or is kept when not given; the start time is stamped on ingesting and the completion time on completed or failed, and each is kept otherwise; every other field is unchanged |
| Tasks.UpdatedIdempotent | backend/app/workers/tasks.py:364-382 | applying the same update twice at the same time equals applying it once |
| Tasks.Apply | backend/app/workers/tasks.py:364-382 | an update keeps the registry's ids, leaves it unchanged for an unknown job id and otherwise replaces just that job's record |
| Tasks.ApplyAll | backend/app/workers/tasks.py:364-382 | a sequence of updates keeps the registry's ids and every other job's record |
| Tasks.ApplyAllSnoc | backend/app/workers/tasks.py:364-382 | applying one more update applies it to the result of the earlier ones |
| Tasks.ApplyAllKeeps | backend/app/workers/tasks.py:364-374 | updates that set no item total and do not enter ingesting keep the job's item total and start time |
| Tasks.ApplyAllAppend | backend/app/workers/tasks.py:364-382 | applying two update lists in one go equals applying them one after the other |
| Tasks.UpdateJobStatus | backend/app/workers/tasks.py:352-382 | the registry afterwards is the old one with the update applied, its invariant and insertion order kept |
| Tasks.Record | backend/app/workers/tasks.py:352-382 | one status update is applied to the registry and appended to the log of updates applied since the start |
| Tasks.LoopUpdatesShape | backend/app/workers/tasks.py:97-99 | every update of the item loop is a processing update without an item total, and progress never decreases along the loop |
| Tasks.LoopUpdatesFrom | backend/app/workers/tasks.py:97-99 | each loop update reports between 1 and the loop's bound of processed items, with the progress of that item |
| Tasks.HashesOfMeans | backend/app/workers/tasks.py:250-260 | the seen set holds exactly the key hashes of the items already visited |
| Tasks.DedupPrefix | backend/app/workers/tasks.py:246-266 | deduplication fails exactly when some content cannot be sliced, and otherwise returns every item in place |
| Tasks.DedupLast | backend/app/workers/tasks.py:253-264 | the last item of a prefix is flagged a duplicate by whether an earlier item shares its key hash |
| Tasks.DedupFlagAt | backend/app/workers/tasks.py:253-264 | item i of any longer prefix is flagged by whether an item before i shares its key hash |
| Tasks.DedupFlags | backend/app/workers/tasks.py:246-266 | every item comes back unchanged but for its flag, and it is flagged a duplicate exactly when an earlier item shares the hash of its first 500 characters |
| Tasks.DeduplicateItems | backend/app/workers/tasks.py:246-266 | the loop with its seen set computes the deduplication function |
| Tasks.AnyIndicator | backend/app/workers/tasks.py:274-280 | true exactly when one of the given phrases occurs in the text |
| Tasks.ClassifySpam | backend/app/workers/tasks.py:269-280 | spam exactly when one of the seven indicator phrases occurs in the lowercased content |
| Tasks.SpamExtends | backend/app/workers/tasks.py:269-280 | text around spam content stays spam |
| Tasks.WithSpam | backend/app/workers/tasks.py:116-117 | every item keeps its place and gets the spam flag of its own content |
| Tasks.MarkSpam | backend/app/workers/tasks.py:116-117 | the loop computes the spam marking function |
| Tasks.Normalize | backend/app/workers/tasks.py:295-344 | validation fails exactly when content, source URL, platform or fetch method is not a string; otherwise the insight carries the job, tenant, post id, content, OCR text, NLP fields, flags, original id and fetch time |
| Tasks.Posts | backend/app/workers/tasks.py:294-347 | the stored insights are the normalized items in order, up to the first item that fails validation |
| Tasks.StoredAllSnoc | backend/app/workers/tasks.py:346 | storing one more insight appends it to the job's stored list |
| Tasks.StoredAll | backend/app/workers/tasks.py:346 | storing no insight leaves the store alone, otherwise the job's list is extended by the new insights |
| Tasks.NormalizeAndStore | backend/app/workers/tasks.py:283-349 | the store holds the old insights plus every insight built before the first validation error, and the result is present exactly when every item was stored |
| Tasks.PostsNext | backend/app/workers/tasks.py:294-347 | the next item adds its insight when it validates and nothing otherwise |
| Tasks.PostsStop | backend/app/workers/tasks.py:294-347 | once an item fails validation, later items add no insight |
| Tasks.EventTypeOf | backend/app/workers/tasks.py:398 | a listed type string maps to the type with that value, any other string to partial_result |
| Tasks.EventTypeOfListed | backend/app/workers/tasks.py:398 | the value of every event type maps back to that type |
| Tasks.Emit | backend/app/workers/tasks.py:385-409 | the published event carries the job id, tenant, mapped event type and the data given |
| Tasks.ItemsOf | backend/app/workers/tasks.py:60-72 | with a non-empty item list the job works on those items, imported one for one |
| Tasks.Fail | backend/app/workers/tasks.py:143-157 | the except branch logs a failed update at progress 0 with the error text and an error event, and the registry is the updates so far applied |
| Tasks.ProcessItems | backend/app/workers/tasks.py:77-103 | the loop returns the surviving items and applies exactly the loop's progress updates to the registry |
| Tasks.FinishRun | backend/app/workers/tasks.py:119-141 | stage 4 and completion follow the closing function, the registry and the insight store reflect its updates and stored insights |
| Tasks.RunStages | backend/app/workers/tasks.py:74-141 | from the item loop on the run follows the stage function, with its updates applied and its insights stored |
| Tasks.ProcessIngestionJob | backend/app/workers/tasks.py:30-157 | the task's status updates, events and stored insights are those of the pipeline function, the registry ends as the old one with the run's updates applied and the store gains the run's insights |
| Tasks.FinishUpdates | backend/app/workers/tasks.py:119-150 | stage 4 only appends closing updates, stores at most one insight per item and fails only on an invalid insight |
| Tasks.StagesUpdates | backend/app/workers/tasks.py:74-150 | after stage 1 the updates are the early ones followed by the closing ones, at most one insight per item is stored and stage 1's failure cannot occur |
| Tasks.PipelineUpdates | backend/app/workers/tasks.py:51-150 | a job whose items cannot be gathered fails after the ingesting update; otherwise the updates are the early ones then the closing ones; a failed run ends with an error event carrying the error text |
| Tasks.EarlyUpdatesShape | backend/app/workers/tasks.py:53-106 | up to enrichment the updates are ingesting 10, processing 30 with the item count, the loop's processing updates, then enriching 80, with progress never decreasing |
| Tasks.RunProgress | backend/app/workers/tasks.py:53-150 | in a run that closes after the early updates, progress never decreases before the final failed update |
| Tasks.RunProcessedBounded | backend/app/workers/tasks.py:53-150 | in such a run no update reports more processed items than stage 1 produced |
| Tasks.RunStagesShape | backend/app/workers/tasks.py:53-138 | a successful such run has the full sequence of stage updates ending in completed 100 |
| Tasks.ProgressNeverDecreases | backend/app/workers/tasks.py:53-133 | the progress reported by a run never goes down, except for the final reset of a failed run |
| Tasks.FailureResetsProgress | backend/app/workers/tasks.py:143-150 | a failed run ends with a failed update at progress 0 carrying the error text and an error event with that text |
| Tasks.SuccessStages | backend/app/workers/tasks.py:53-138 | a successful run goes ingesting 10, processing 30 with the item count, per-item processing updates, enriching 80, enriching 90 and completed 100 with the stored count and the run time |
| Tasks.ItemsProcessedBounded | backend/app/workers/tasks.py:99-131 | no update of any run reports more processed items than stage 1 produced |
| Tasks.KeywordOnlyJobFails | backend/app/workers/tasks.py:60-72 | without items and without accounts the job fails in stage 1 with exactly the ingesting and failed updates, whatever its keywords |
| Tasks.InsightsFollowItems | backend/app/workers/tasks.py:77-122 | a successful run stores one insight per surviving item, in order, with its content, post id, OCR text and job id, flagged spam by its content and duplicate exactly when an earlier survivor shares its key hash |
| Tasks.SucceededParts | backend/app/workers/tasks.py:112-122 | a successful run stores the insights of the deduplicated, spam-marked survivors, all of them |
| Tasks.StoredItem | backend/app/workers/tasks.py:112-122 | stored insight i is the normalized survivor i with its flags |
| Tasks.CompletedRecord | backend/app/workers/tasks.py:53-133 | applying a successful run's updates leaves the job completed at 100 with item total, processed count, run time, start and completion times |
| Tasks.MiddleUpdates | backend/app/workers/tasks.py:97-120 | the updates between processing 30 and completion set no item total and do not enter ingesting |
| Tasks.CompletedRecordOf | backend/app/workers/tasks.py:53-133 | updates that start with ingesting and processing with a total, keep the total and start time in between and end in completed leave the job completed with those values |
| Tasks.FinalJobRecord | backend/app/workers/tasks.py:126-133 | after a successful run the job record is completed at 100 percent with stage 1's item count, the stored count, the run time and the start and completion times |

## Left out

- Metrics, logging, tracing and the HTTP wrappers around these operations have no observable effect on the modelled state.
- The circuit breaker's asyncio lock is not modelled: every operation is atomic. Its fallback dictionaries, `get_status` and the registry of named breakers are thin wrappers and are not modelled either.
- CircuitBreaker: `_count_recent_failures` prunes a local copy that it then writes back. The model prunes the field directly, which has the same effect.
- RateLimiter: Redis EXPIRE is not modelled. It has no observable effect, since every entry it would expire is pruned at the next check anyway.
- RateLimiter: the Redis pipeline is taken to be atomic.
- RateLimiter: each tenant's tier lookup is a function parameter.
- DbService: the PostgreSQL paths, `connect` and `disconnect` are database I/O and are not modelled. Only the in-memory fallback is.
- Timestamps are integer seconds rather than ISO strings. For equal-length ISO strings, comparing the strings orders them as the times do.
- The ingest route creates no job record. It only enqueues the task. A job therefore reaches the route-level registry only through `JobsRoute.MockJobStore.CreateMockJob`, and the task's status updates do nothing for an id that is not registered (`Tasks.Apply`).
- `get_db` and the route-level `check_rate_limit` are stubs and are not modelled.
- Async execution, SSE streaming and the `event_generator` loop's timing and disconnect detection are not modelled. Only each frame's format and the heartbeat frame are.
- Floating-point values become exact rationals or integers; `progress_percent` is an integer. This covers averages, ratios, rates, the remaining-time estimate and image scale factors.
- Ocr: the mean confidence is an exact rational, so float rounding is not modelled.
- Ingest: `HttpUrl` parsing and normalisation is the `httpUrl` parameter of `Ingest.Validate`. The payload carries the normalised URL as a string; how the task queue serialises the URL object is not modelled.
- Ingest: the field types other than `mode` and `priority` are datatype fields, so a body with a wrongly typed value (a number for `content`, say) cannot be written down.
- JSON encoding, gzip, the clock, the file walk, HTTP fetching, HTML parsing, uuid4, MD5 and Python `hash` are function parameters.
- Text.Lower: lower- and upper-casing cover ASCII letters only; stripping and splitting (`Text.Strip`, `Text.Split`) use Python's full `str.isspace()` set (`Text.IsSpace`).
- Nlp.Tokens: word characters are ASCII letters, digits and `_` only (`Nlp.IsWordChar`). Python's `\b` and `\w` are Unicode-aware, so for "café crème" the source finds no token in it (no `\b` falls inside "café") while the model yields "caf". The same restriction carries over to `Nlp.KeywordCounter`, `Nlp.Keywords` and the topic and entity extraction built on tokens.
- The OCR engines, OpenCV filters, image downloads and decoding are function parameters. The colour mode of `IMREAD_COLOR` is not modelled.
- ImagePreprocessing: the preprocessor's outcome is tied to the preprocessing model through one default pipeline and is not re-derived from image data.
- ImagePreprocessing: the internals of `_deskew` are a parameter that yields the angle and the rotated image. `round(angle, 2)` is not modelled.
- ImagePreprocessing: the resize arithmetic uses exact reals truncated to integers, and the unused `target_dpi` argument is not modelled.
- ImagePreprocessing.ResizeDown: requires a non-negative maximum dimension. With a negative configured maximum the source would scale to negative sizes.
- ImagePreprocessing.ResizeUp: only covers images whose longest side is positive. At 0 the source's `1000 / longest` raises.
- Ocr: the outer `except` of `extract_text` is not modelled. Every per-source failure is already caught inside the loop, so it cannot be reached.
- Lazy singletons and the `get_*_service` accessors are wiring and are not modelled.
- Scraper: `urlparse` is simplified to the scheme, host and path this code reads. Error messages collapse to one error record per URL.
- Scraper: `robots.txt` checking is a stub that allows every URL.
- Scraper: the rate-limit sleep is not performed. The model computes the wait and records the request time.
- Scraper: `fetched_at` is one clock parameter per call.
- Scraper: inheritance between the scraper classes is flattened into one record of functions.
- Archive: `archive_old_insights` re-queries in an outer loop until no batch is left, and commits to the database. Only one batch iteration is modelled, and its termination is not.
- Archive: the result dictionaries become the `ArchiveOutcome` datatype. A local archive is identified by its key, not by its absolute path under the working directory. A bucket object keeps the content type and the metadata it was put with.
- Dedup: the MinHash seeds derived from MD5 are a parameter, and so is the `_clean_text` regular-expression cleaning.
- Nlp: the `_clean_text` cleaning is the `env.clean` parameter. The spaCy, VADER and langdetect models and their lazy loaders are parameters.
- SearchService: `setup_index` and `get_stats` only configure or read the Meilisearch client. The search route's `get_search_stats` is left out for the same reason.
- Scheduled: the beat schedule, `update_queue_metrics`, `perform_health_check`, `sync_meilisearch` and the `archive_old_insights` task wrapper are left out. They are scheduling and monitoring around foreign clients.
- Scheduled: the dead-letter queue's `llen` and `lrange` are read as one snapshot.
- Tasks: Celery's retry and `MaxRetriesExceeded` handling in the ingestion task are broker transport and are not modelled. The model ends a failed run in the task's except branch.
- Tasks: the elapsed run time is a parameter, not measured.
- Tasks: `run_nlp_analysis` and `run_ocr_extraction` become the two functions of the `Services` parameter, which give None when the engine raises. How they wrap the NLP and OCR services is not modelled.
