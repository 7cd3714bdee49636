/**
 * The worker's ingestion task and its helpers: the stage-by-stage status
 * updates of a job, the scraping of accounts, prefix-hash deduplication,
 * the spam phrase check, the normalisation of processed items into
 * insights and the mapping of event type strings. NLP, OCR, the scrapers,
 * Python's `hash`, fresh uuids, exception texts and the clock are
 * parameters.
 */
module Tasks {
  import opened Wrappers
  import Text
  import Seqs
  import opened Payload
  import JobsRoute
  import InsightsRoute
  import Events
  import Nlp

  // ------------------------------------------------------------ item dictionaries

  /** The keys of an item the worker reads. */
  datatype Item = Item(
    id: Field<string>,
    content: Field<string>,
    url: Field<string>,
    author: Field<string>,
    timestamp: Field<int>,
    media: Field<seq<string>>,
    platform: Field<string>,
    fetchMethod: Field<string>)

  function OfOption<T>(o: Option<T>): Field<T>
  {
    if o.Some? then Present(o.value) else Null
  }

  /** `item.model_dump()` of a submitted item: its keys are present, None when not given. */
  function FromIngest(it: Payload.IngestItem): Item
  {
    Item(OfOption(it.id), OfOption(it.content), OfOption(it.url), OfOption(it.author),
         OfOption(it.timestamp), Absent, Absent, Absent)
  }

  function Imported(its: seq<Payload.IngestItem>): (r: seq<Item>)
    ensures |r| == |its| && forall i :: 0 <= i < |its| ==> r[i] == FromIngest(its[i])
  {
    if its == [] then [] else [FromIngest(its[0])] + Imported(its[1..])
  }

  /** `item.get("content", "")`. */
  function ContentText(item: Item): Option<string>
  {
    Get(item.content, "")
  }

  // ------------------------------------------------------------ scraping

  /** The scrapers; None is an exception. */
  datatype Scrapers = Scrapers(urls: string -> Option<seq<Item>>, subreddit: string -> Option<seq<Item>>)

  datatype Route = ScrapeUrl(url: string) | ScrapeSubreddit(name: string) | SkipHandle

  /** Where `scrape_content` sends one account. */
  function RouteOf(account: string): (r: Route)
    ensures r.SkipHandle? <==> Text.StartsWith(account, "@")
    ensures r.ScrapeSubreddit? <==> Text.StartsWith(account, "r/")
    ensures r.ScrapeSubreddit? ==> account == "r/" + r.name
    ensures r.ScrapeUrl? ==> r.url == account
  {
    if Text.StartsWith(account, "http") then
      assert account[0] == account[..4][0] == 'h';
      ScrapeUrl(account)
    else if Text.StartsWith(account, "r/") then
      assert account[0] == account[..2][0] == 'r';
      ScrapeSubreddit(account[2..])
    else if Text.StartsWith(account, "@") then SkipHandle
    else ScrapeUrl(account)
  }

  /** What one account contributes; a scrape that raises contributes nothing. */
  function Fetched(account: string, s: Scrapers): seq<Item>
  {
    match RouteOf(account)
    case ScrapeUrl(u) => GetOr(s.urls(u), [])
    case ScrapeSubreddit(n) => GetOr(s.subreddit(n), [])
    case SkipHandle => []
  }

  /** The items of all accounts, account by account. */
  function ScrapedFrom(accounts: seq<string>, s: Scrapers): seq<Item>
  {
    if accounts == [] then []
    else ScrapedFrom(accounts[..|accounts| - 1], s) + Fetched(accounts[|accounts| - 1], s)
  }

  /** Scraping a list of accounts scrapes each part in turn. */
  lemma {:induction false} ScrapedFromAppend(a: seq<string>, b: seq<string>, s: Scrapers)
    ensures ScrapedFrom(a + b, s) == ScrapedFrom(a, s) + ScrapedFrom(b, s)
    decreases |b|
  {
    if b == [] {
      assert a + b == a;
    } else {
      var init := b[..|b| - 1];
      assert (a + b)[..|a + b| - 1] == a + init;
      ScrapedFromAppend(a, init, s);
    }
  }

  /** Social handles are skipped, so a list of them yields no items. */
  lemma {:induction false} HandlesScrapeNothing(accounts: seq<string>, s: Scrapers)
    requires forall i :: 0 <= i < |accounts| ==> Text.StartsWith(accounts[i], "@")
    ensures ScrapedFrom(accounts, s) == []
    decreases |accounts|
  {
    if accounts != [] {
      HandlesScrapeNothing(accounts[..|accounts| - 1], s);
    }
  }

  /**
   * `scrape_content`: iterating a missing account list raises; keywords are
   * never scraped.
   */
  method ScrapeContent(accounts: Option<seq<string>>, keywords: Option<seq<string>>, s: Scrapers) returns (r: Option<seq<Item>>)
    ensures r.None? <==> accounts.None?
    ensures accounts.Some? ==> r == Some(ScrapedFrom(accounts.value, s))
  {
    if accounts.None? {
      return None;
    }
    var all := accounts.value;
    var items: seq<Item> := [];
    var i := 0;
    while i < |all|
      invariant 0 <= i <= |all|
      invariant items == ScrapedFrom(all[..i], s)
    {
      assert all[..i + 1][..i] == all[..i];
      var account := all[i];
      var route := RouteOf(account);
      match route {
        case ScrapeUrl(u) =>
          var got := s.urls(u);
          if got.Some? {
            items := items + got.value;
          }
        case ScrapeSubreddit(n) =>
          var got := s.subreddit(n);
          if got.Some? {
            items := items + got.value;
          }
        case SkipHandle =>
      }
      i := i + 1;
    }
    assert all[..i] == all;
    r := Some(items);
  }

  // ------------------------------------------------------------ per-item analysis

  /** An item after NLP and OCR, with the flags enrichment sets. */
  datatype Processed = Processed(item: Item, nlp: Nlp.NlpResult, ocrText: Option<string>, isDuplicate: bool, isSpam: bool)

  /** NLP and OCR; None is an exception. */
  datatype Services = Services(nlp: string -> Option<Nlp.NlpResult>, ocr: seq<string> -> Option<string>)

  /** `if item.get("media")`: a non-empty media list. */
  predicate HasMedia(item: Item)
  {
    item.media.Present? && item.media.value != []
  }

  /** `run_nlp_analysis(item.get("content", ""))`; the analyser answers None with the empty result. */
  function NlpOf(item: Item, sv: Services): Option<Nlp.NlpResult>
  {
    match item.content
    case Null => Some(Nlp.EmptyResult())
    case Absent => sv.nlp("")
    case Present(c) => sv.nlp(c)
  }

  /** One item through NLP and then OCR; None when either raises. */
  function ProcessItem(item: Item, sv: Services): (r: Option<Processed>)
    ensures r.Some? <==> NlpOf(item, sv).Some? && (HasMedia(item) ==> sv.ocr(item.media.value).Some?)
    ensures r.Some? ==> r.value.item == item && r.value.nlp == NlpOf(item, sv).value
    ensures r.Some? ==> (r.value.ocrText.Some? <==> HasMedia(item))
  {
    var n := NlpOf(item, sv);
    if n.None? then None
    else if HasMedia(item) then
      var o := sv.ocr(item.media.value);
      if o.None? then None else Some(Processed(item, n.value, Some(o.value), false, false))
    else Some(Processed(item, n.value, None, false, false))
  }

  /** The items among the first `k` that NLP and OCR process, in order. */
  function Survivors(items: seq<Item>, sv: Services, k: nat): (r: seq<Processed>)
    requires k <= |items|
    ensures |r| <= k
  {
    if k == 0 then []
    else
      var p := ProcessItem(items[k - 1], sv);
      Survivors(items, sv, k - 1) + (if p.Some? then [p.value] else [])
  }

  /** `30 + int((i + 1) / len(items) * 50)`, with exact division. */
  function ItemProgress(i: nat, n: nat): (p: int)
    requires i < n
    ensures 30 <= p <= 80
    ensures i == n - 1 ==> p == 80
  {
    30 + ((i + 1) * 50) / n
  }

  lemma DivMonotone(a: nat, b: nat, n: nat)
    requires a <= b && n > 0
    ensures a / n <= b / n
  {
    var qa, qb := a / n, b / n;
    assert n * qa <= a;
    assert b < n * qb + n;
    assert n * qb + n == n * (qb + 1);
    MulStrict(n, qa, qb + 1);
  }

  lemma {:induction false} MulMonotone(n: nat, x: int, y: int)
    requires x <= y
    ensures n * x <= n * y
    decreases n
  {
    if n > 0 {
      MulMonotone(n - 1, x, y);
      assert n * x == (n - 1) * x + x && n * y == (n - 1) * y + y;
    }
  }

  lemma MulStrict(n: nat, x: int, y: int)
    requires n > 0 && n * x < n * y
    ensures x < y
  {
    if y <= x {
      MulMonotone(n, y, x);
    }
  }

  /** A later item never reports less progress. */
  lemma ItemProgressMonotone(i: nat, j: nat, n: nat)
    requires i <= j < n
    ensures ItemProgress(i, n) <= ItemProgress(j, n)
  {
    DivMonotone((i + 1) * 50, (j + 1) * 50, n);
  }

  // ------------------------------------------------------------ job status

  /** The arguments of one `update_job_status` call; None is an omitted argument. */
  datatype StatusUpdate = StatusUpdate(
    status: JobsRoute.JobStatus,
    progress: int,
    itemsTotal: Option<int>,
    itemsProcessed: Option<int>,
    processingTimeMs: Option<int>,
    errorMessage: Option<string>)

  function Status(status: JobsRoute.JobStatus, progress: int): StatusUpdate
  {
    StatusUpdate(status, progress, None, None, None, None)
  }

  function OrKeep<T>(o: Option<T>, current: T): T
  {
    if o.Some? then o.value else current
  }

  /** The job record after one update at time `now`. */
  function Updated(j: JobsRoute.MockJob, u: StatusUpdate, now: int): (r: JobsRoute.MockJob)
    ensures r.status == u.status && r.progressPercent == u.progress && r.updatedAt == now
    ensures u.itemsTotal.Some? ==> r.itemsTotal == u.itemsTotal.value
    ensures u.itemsTotal.None? ==> r.itemsTotal == j.itemsTotal
    ensures u.itemsProcessed.Some? ==> r.itemsProcessed == u.itemsProcessed.value
    ensures u.itemsProcessed.None? ==> r.itemsProcessed == j.itemsProcessed
    ensures u.processingTimeMs.Some? ==> r.processingTimeMs == u.processingTimeMs
    ensures u.processingTimeMs.None? ==> r.processingTimeMs == j.processingTimeMs
    ensures u.errorMessage.Some? ==> r.errorMessage == u.errorMessage
    ensures u.errorMessage.None? ==> r.errorMessage == j.errorMessage
    ensures u.status == JobsRoute.Ingesting ==> r.startedAt == Some(now)
    ensures u.status != JobsRoute.Ingesting ==> r.startedAt == j.startedAt
    ensures u.status in {JobsRoute.Completed, JobsRoute.Failed} ==> r.completedAt == Some(now)
    ensures u.status !in {JobsRoute.Completed, JobsRoute.Failed} ==> r.completedAt == j.completedAt
    ensures r.(status := j.status, progressPercent := j.progressPercent, updatedAt := j.updatedAt,
               itemsTotal := j.itemsTotal, itemsProcessed := j.itemsProcessed,
               processingTimeMs := j.processingTimeMs, errorMessage := j.errorMessage,
               startedAt := j.startedAt, completedAt := j.completedAt) == j
  {
    j.(status := u.status, progressPercent := u.progress, updatedAt := now,
       itemsTotal := OrKeep(u.itemsTotal, j.itemsTotal),
       itemsProcessed := OrKeep(u.itemsProcessed, j.itemsProcessed),
       processingTimeMs := if u.processingTimeMs.Some? then u.processingTimeMs else j.processingTimeMs,
       errorMessage := if u.errorMessage.Some? then u.errorMessage else j.errorMessage,
       startedAt := if u.status == JobsRoute.Ingesting then Some(now) else j.startedAt,
       completedAt := if u.status in {JobsRoute.Completed, JobsRoute.Failed} then Some(now) else j.completedAt)
  }

  /** Repeating an update changes nothing more. */
  lemma UpdatedIdempotent(j: JobsRoute.MockJob, u: StatusUpdate, now: int)
    ensures Updated(Updated(j, u, now), u, now) == Updated(j, u, now)
  {
  }

  /** An update applied to the registry: unknown ids are left alone. */
  function Apply(m: map<string, JobsRoute.MockJob>, jobId: string, u: StatusUpdate, now: int): (r: map<string, JobsRoute.MockJob>)
    ensures r.Keys == m.Keys
    ensures jobId !in m ==> r == m
    ensures jobId in m ==> r == m[jobId := Updated(m[jobId], u, now)]
  {
    if jobId in m then m[jobId := Updated(m[jobId], u, now)] else m
  }

  /** The updates applied in order. */
  function ApplyAll(m: map<string, JobsRoute.MockJob>, jobId: string, us: seq<StatusUpdate>, now: int): (r: map<string, JobsRoute.MockJob>)
    ensures r.Keys == m.Keys
    ensures forall k :: k in m && k != jobId ==> r[k] == m[k]
  {
    if us == [] then m else Apply(ApplyAll(m, jobId, us[..|us| - 1], now), jobId, us[|us| - 1], now)
  }

  lemma ApplyAllSnoc(m: map<string, JobsRoute.MockJob>, jobId: string, us: seq<StatusUpdate>, u: StatusUpdate, now: int)
    ensures ApplyAll(m, jobId, us + [u], now) == Apply(ApplyAll(m, jobId, us, now), jobId, u, now)
  {
    assert (us + [u])[..|us|] == us;
  }

  /** Updates that leave `items_total` out and do not enter ingesting keep the total and the start time. */
  lemma {:induction false} ApplyAllKeeps(m: map<string, JobsRoute.MockJob>, jobId: string, us: seq<StatusUpdate>, now: int)
    requires jobId in m
    requires forall i :: 0 <= i < |us| ==> us[i].itemsTotal.None? && us[i].status != JobsRoute.Ingesting
    ensures ApplyAll(m, jobId, us, now)[jobId].itemsTotal == m[jobId].itemsTotal
    ensures ApplyAll(m, jobId, us, now)[jobId].startedAt == m[jobId].startedAt
    decreases |us|
  {
    if us != [] {
      ApplyAllKeeps(m, jobId, us[..|us| - 1], now);
    }
  }

  lemma {:induction false} ApplyAllAppend(m: map<string, JobsRoute.MockJob>, jobId: string, a: seq<StatusUpdate>, b: seq<StatusUpdate>, now: int)
    ensures ApplyAll(m, jobId, a + b, now) == ApplyAll(ApplyAll(m, jobId, a, now), jobId, b, now)
    decreases |b|
  {
    if b == [] {
      assert a + b == a;
    } else {
      var init := b[..|b| - 1];
      assert (a + b)[..|a + b| - 1] == a + init;
      ApplyAllAppend(m, jobId, a, init, now);
    }
  }

  /** `update_job_status` on the route's registry. */
  method UpdateJobStatus(store: JobsRoute.MockJobStore, jobId: string, u: StatusUpdate, now: int)
    requires store.Valid()
    modifies store
    ensures store.Valid() && store.order == old(store.order)
    ensures store.jobs == Apply(old(store.jobs), jobId, u, now)
  {
    if jobId in store.jobs {
      store.jobs := store.jobs[jobId := Updated(store.jobs[jobId], u, now)];
    }
  }

  /** One status update of the task, logged. */
  method Record(store: JobsRoute.MockJobStore, ghost base: map<string, JobsRoute.MockJob>, jobId: string,
                log: seq<StatusUpdate>, u: StatusUpdate, now: int) returns (log': seq<StatusUpdate>)
    requires store.Valid() && store.jobs == ApplyAll(base, jobId, log, now)
    modifies store
    ensures store.Valid() && store.order == old(store.order)
    ensures log' == log + [u] && store.jobs == ApplyAll(base, jobId, log', now)
  {
    UpdateJobStatus(store, jobId, u, now);
    log' := log + [u];
    ApplyAllSnoc(base, jobId, log, u, now);
  }

  /** The updates of the item loop over the first `k` items: one per processed item. */
  function LoopUpdates(items: seq<Item>, sv: Services, k: nat): seq<StatusUpdate>
    requires k <= |items|
  {
    if k == 0 then []
    else
      LoopUpdates(items, sv, k - 1) +
      (if ProcessItem(items[k - 1], sv).Some?
       then [StatusUpdate(JobsRoute.Processing, ItemProgress(k - 1, |items|), None, Some(k), None, None)]
       else [])
  }

  /**
   * The loop's updates are "processing" ones with progress in [30, 80],
   * non-decreasing, and an items_processed between 1 and `k`.
   */
  lemma {:induction false} LoopUpdatesShape(items: seq<Item>, sv: Services, k: nat)
    requires k <= |items|
    ensures forall a :: 0 <= a < |LoopUpdates(items, sv, k)| ==>
      LoopUpdates(items, sv, k)[a].status == JobsRoute.Processing &&
      30 <= LoopUpdates(items, sv, k)[a].progress <= 80 && LoopUpdates(items, sv, k)[a].itemsTotal.None? &&
      LoopUpdates(items, sv, k)[a].itemsProcessed.Some? && 1 <= LoopUpdates(items, sv, k)[a].itemsProcessed.value <= k
    ensures forall a, b :: 0 <= a < b < |LoopUpdates(items, sv, k)| ==>
      LoopUpdates(items, sv, k)[a].progress <= LoopUpdates(items, sv, k)[b].progress
    decreases k
  {
    if k > 0 {
      LoopUpdatesShape(items, sv, k - 1);
      var prev := LoopUpdates(items, sv, k - 1);
      var us := LoopUpdates(items, sv, k);
      if ProcessItem(items[k - 1], sv).Some? {
        var last := |us| - 1;
        assert us[last].progress == ItemProgress(k - 1, |items|);
        forall a | 0 <= a < last ensures us[a] == prev[a] && us[a].progress <= us[last].progress {
          assert us[a] == prev[a];
          var v := us[a].itemsProcessed.value;
          assert 1 <= v <= k - 1;
          LoopUpdatesFrom(items, sv, k - 1, a);
          ItemProgressMonotone(v - 1, k - 1, |items|);
        }
        forall a, b | 0 <= a < b < |us| ensures us[a].progress <= us[b].progress {
          if b < last {
            assert us[a] == prev[a] && us[b] == prev[b];
          }
        }
      }
    }
  }

  /** The update for the item at position `i` reports `i + 1` processed and that item's progress. */
  lemma {:induction false} LoopUpdatesFrom(items: seq<Item>, sv: Services, k: nat, a: nat)
    requires k <= |items| && a < |LoopUpdates(items, sv, k)|
    ensures LoopUpdates(items, sv, k)[a].itemsProcessed.Some?
    ensures 1 <= LoopUpdates(items, sv, k)[a].itemsProcessed.value <= k
    ensures LoopUpdates(items, sv, k)[a].progress == ItemProgress(LoopUpdates(items, sv, k)[a].itemsProcessed.value - 1, |items|)
    decreases k
  {
    var prev := LoopUpdates(items, sv, k - 1);
    if a < |prev| {
      LoopUpdatesFrom(items, sv, k - 1, a);
    }
  }

  // ------------------------------------------------------------ deduplication

  const PrefixLength: nat := 500

  /** No item among the first `k` has a None content, which `content[:500]` cannot slice. */
  predicate Sliceable(ps: seq<Processed>, k: nat)
    requires k <= |ps|
  {
    forall i :: 0 <= i < k ==> ContentText(ps[i].item).Some?
  }

  /** `hash(content[:500])`. */
  function KeyHash(p: Processed, hash: string -> int): int
    requires ContentText(p.item).Some?
  {
    hash(Seqs.Take(ContentText(p.item).value, PrefixLength))
  }

  /** The `seen` set after the first `k` items. */
  function HashesOf(ps: seq<Processed>, hash: string -> int, k: nat): set<int>
    requires k <= |ps| && Sliceable(ps, k)
  {
    if k == 0 then {} else HashesOf(ps, hash, k - 1) + {KeyHash(ps[k - 1], hash)}
  }

  /** `seen` holds exactly the key hashes of the first `k` items. */
  lemma {:induction false} HashesOfMeans(ps: seq<Processed>, hash: string -> int, k: nat, h: int)
    requires k <= |ps| && Sliceable(ps, k)
    ensures h in HashesOf(ps, hash, k) <==> exists j :: 0 <= j < k && KeyHash(ps[j], hash) == h
    decreases k
  {
    if k > 0 {
      HashesOfMeans(ps, hash, k - 1, h);
      if KeyHash(ps[k - 1], hash) == h {
        assert 0 <= k - 1 < k && KeyHash(ps[k - 1], hash) == h;
      }
      if exists j :: 0 <= j < k && KeyHash(ps[j], hash) == h {
        var j :| 0 <= j < k && KeyHash(ps[j], hash) == h;
        if j < k - 1 {
          assert 0 <= j < k - 1 && KeyHash(ps[j], hash) == h;
        }
      }
    }
  }

  /** The item with `is_duplicate` set to `dup`. */
  function MarkDuplicate(p: Processed, dup: bool): Processed
  {
    p.(isDuplicate := dup)
  }

  /** `deduplicate_items` over the first `k` items; None when a None content raises. */
  function DedupPrefix(ps: seq<Processed>, hash: string -> int, k: nat): (r: Option<seq<Processed>>)
    requires k <= |ps|
    ensures r.Some? <==> Sliceable(ps, k)
    ensures r.Some? ==> |r.value| == k && forall i :: 0 <= i < k ==> r.value[i].item == ps[i].item
  {
    if k == 0 then Some([])
    else
      var prev := DedupPrefix(ps, hash, k - 1);
      var p := ps[k - 1];
      if prev.None? || ContentText(p.item).None? then None
      else Some(prev.value + [MarkDuplicate(p, KeyHash(p, hash) in HashesOf(ps, hash, k - 1))])
  }

  /** An item before `i` has the same key hash as item `i`. */
  predicate HashSeenBefore(ps: seq<Processed>, hash: string -> int, i: nat)
    requires i < |ps| && Sliceable(ps, i + 1)
  {
    exists j :: 0 <= j < i && KeyHash(ps[j], hash) == KeyHash(ps[i], hash)
  }

  /** The last item of a prefix is flagged by whether an earlier item shares its key hash. */
  lemma DedupLast(ps: seq<Processed>, hash: string -> int, k: nat)
    requires 0 < k <= |ps| && Sliceable(ps, k)
    ensures Sliceable(ps, k - 1)
    ensures DedupPrefix(ps, hash, k).value ==
      DedupPrefix(ps, hash, k - 1).value + [MarkDuplicate(ps[k - 1], HashSeenBefore(ps, hash, k - 1))]
  {
    assert ContentText(ps[k - 1].item).Some?;
    HashesOfMeans(ps, hash, k - 1, KeyHash(ps[k - 1], hash));
  }

  /** Item `i` of a prefix comes back in place, flagged by whether an earlier item shares its key hash. */
  lemma {:induction false} DedupFlagAt(ps: seq<Processed>, hash: string -> int, k: nat, i: nat)
    requires i < k <= |ps| && Sliceable(ps, k)
    ensures var r := DedupPrefix(ps, hash, k).value;
      r[i] == MarkDuplicate(ps[i], HashSeenBefore(ps, hash, i))
    decreases k
  {
    DedupLast(ps, hash, k);
    if i < k - 1 {
      DedupFlagAt(ps, hash, k - 1, i);
      assert DedupPrefix(ps, hash, k).value[i] == DedupPrefix(ps, hash, k - 1).value[i];
    }
  }

  /**
   * Every item comes back in place, and it is flagged a duplicate exactly
   * when an earlier item has the same hash of its first 500 characters.
   */
  lemma DedupFlags(ps: seq<Processed>, hash: string -> int, k: nat)
    requires k <= |ps| && Sliceable(ps, k)
    ensures var r := DedupPrefix(ps, hash, k).value;
      forall i :: 0 <= i < k ==>
        r[i] == ps[i].(isDuplicate := r[i].isDuplicate) && (r[i].isDuplicate <==> HashSeenBefore(ps, hash, i))
  {
    forall i | 0 <= i < k
      ensures DedupPrefix(ps, hash, k).value[i] == MarkDuplicate(ps[i], HashSeenBefore(ps, hash, i))
    {
      DedupFlagAt(ps, hash, k, i);
    }
  }

  /** `deduplicate_items`. */
  method DeduplicateItems(ps: seq<Processed>, hash: string -> int) returns (r: Option<seq<Processed>>)
    ensures r == DedupPrefix(ps, hash, |ps|)
  {
    var seen: set<int> := {};
    var unique: seq<Processed> := [];
    var i := 0;
    while i < |ps|
      invariant 0 <= i <= |ps|
      invariant Sliceable(ps, i) && Some(unique) == DedupPrefix(ps, hash, i)
      invariant seen == HashesOf(ps, hash, i)
    {
      var content := ContentText(ps[i].item);
      if content.None? {
        return None;
      }
      var h := hash(Seqs.Take(content.value, PrefixLength));
      if h !in seen {
        seen := seen + {h};
        unique := unique + [MarkDuplicate(ps[i], false)];
      } else {
        unique := unique + [MarkDuplicate(ps[i], true)];
      }
      i := i + 1;
    }
    r := Some(unique);
  }

  // ------------------------------------------------------------ spam

  const SpamIndicators: seq<string> :=
    ["buy now", "click here", "limited offer", "act now", "free money", "winner", "congratulations"]

  function AnyIndicator(text: string, phrases: seq<string>): (b: bool)
    ensures b <==> exists k :: 0 <= k < |phrases| && Text.Contains(text, phrases[k])
  {
    if phrases == [] then false
    else if Text.Contains(text, phrases[0]) then true
    else
      assert forall k :: 1 <= k < |phrases| ==> phrases[k] == phrases[1..][k - 1];
      AnyIndicator(text, phrases[1..])
  }

  /** `classify_spam`: one of the seven phrases occurs in the lowercased content. */
  function ClassifySpam(content: string): (b: bool)
    ensures b <==> exists k :: 0 <= k < |SpamIndicators| && Text.Contains(Text.Lower(content), SpamIndicators[k])
  {
    AnyIndicator(Text.Lower(content), SpamIndicators)
  }

  /** Text around a spam phrase keeps it spam: more content never clears the flag. */
  lemma SpamExtends(a: string, b: string, c: string)
    requires ClassifySpam(b)
    ensures ClassifySpam(a + b + c)
  {
    var k :| 0 <= k < |SpamIndicators| && Text.Contains(Text.Lower(b), SpamIndicators[k]);
    var sub := SpamIndicators[k];
    var i := Text.ContainsIndex(Text.Lower(b), sub);
    var s := a + b + c;
    var ls := Text.Lower(s);
    assert ls[|a| + i..|a| + i + |sub|] == Text.Lower(b)[i..i + |sub|] by {
      forall t | |a| + i <= t < |a| + i + |sub| ensures ls[t] == Text.Lower(b)[t - |a|] {
        assert s[t] == b[t - |a|];
      }
    }
    Text.ContainsAt(ls, sub, |a| + i);
  }

  /** One item with its spam flag set from its content. */
  function SpamMarked(p: Processed): Processed
    requires ContentText(p.item).Some?
  {
    p.(isSpam := ClassifySpam(ContentText(p.item).value))
  }

  /** The `is_spam` loop of the task. */
  function WithSpam(ps: seq<Processed>): (r: seq<Processed>)
    requires Sliceable(ps, |ps|)
    ensures |r| == |ps|
    ensures forall i :: 0 <= i < |ps| ==> r[i] == SpamMarked(ps[i])
  {
    if ps == [] then []
    else
      assert Sliceable(ps[1..], |ps| - 1) by {
        forall i | 0 <= i < |ps| - 1 ensures ContentText(ps[1..][i].item).Some? {
          assert ps[1..][i] == ps[i + 1];
        }
      }
      [SpamMarked(ps[0])] + WithSpam(ps[1..])
  }

  method MarkSpam(ps: seq<Processed>) returns (r: seq<Processed>)
    requires Sliceable(ps, |ps|)
    ensures r == WithSpam(ps)
  {
    r := [];
    var i := 0;
    while i < |ps|
      invariant 0 <= i <= |ps| && |r| == i
      invariant forall k :: 0 <= k < i ==> r[k] == SpamMarked(ps[k])
    {
      r := r + [SpamMarked(ps[i])];
      i := i + 1;
    }
  }

  // ------------------------------------------------------------ normalisation

  /** `item.get("id") or str(uuid4())`. */
  function PostId(item: Item, uuid: string): string
  {
    if item.id.Present? && item.id.value != "" then item.id.value else uuid
  }

  /**
   * The `NormalizedPost` of one processed item, or None when validation
   * fails: content, source URL, platform and fetch method must be strings.
   */
  function Normalize(jobId: string, tenant: string, p: Processed, uuid: string, now: int): (r: Option<InsightsRoute.NormalizedPost>)
    ensures r.None? <==>
      ContentText(p.item).None? || Get(p.item.url, "").None? || Get(p.item.platform, "unknown").None? ||
      Get(p.item.fetchMethod, "api").None?
    ensures r.Some? ==>
      r.value.jobId == jobId && r.value.tenant == tenant && r.value.postId == PostId(p.item, uuid) &&
      r.value.contentText == ContentText(p.item).value && r.value.ocrText == p.ocrText &&
      r.value.sentiment == p.nlp.sentiment.kind && r.value.language == p.nlp.language.code &&
      r.value.entities == p.nlp.entities && r.value.topics == p.nlp.topics && r.value.keywords == p.nlp.keywords &&
      r.value.isSpam == p.isSpam && r.value.isDuplicate == p.isDuplicate &&
      r.value.provenance.originalId == Opt(p.item.id) && r.value.provenance.fetchedAt == now
  {
    var content := ContentText(p.item);
    var url := Get(p.item.url, "");
    var platform := Get(p.item.platform, "unknown");
    var fetchMethod := Get(p.item.fetchMethod, "api");
    if content.None? || url.None? || platform.None? || fetchMethod.None? then None
    else
      var n := p.nlp;
      Some(InsightsRoute.NormalizedPost(
        PostId(p.item, uuid), jobId, tenant, content.value, p.ocrText,
        n.sentiment.kind, n.sentiment.score, n.entities, n.topics, n.keywords, n.language.code,
        Opt(p.item.author), Opt(p.item.timestamp),
        InsightsRoute.Provenance(url.value, platform.value, fetchMethod.value, now, Opt(p.item.id)),
        InsightsRoute.ConfidenceScores(n.sentiment.confidence, n.language.confidence, 0.8, 0.8, None),
        p.isSpam, p.isDuplicate, now, now))
  }

  /** The insights stored from the first `k` items: one per item, up to the first that fails validation. */
  function Posts(jobId: string, tenant: string, ps: seq<Processed>, uuids: nat -> string, now: int, k: nat): (r: seq<InsightsRoute.NormalizedPost>)
    requires k <= |ps|
    ensures |r| <= k
    ensures forall i :: 0 <= i < |r| ==> Normalize(jobId, tenant, ps[i], uuids(i), now) == Some(r[i])
    ensures |r| < k ==> Normalize(jobId, tenant, ps[|r|], uuids(|r|), now).None?
  {
    if k == 0 then []
    else
      var prev := Posts(jobId, tenant, ps, uuids, now, k - 1);
      var n := Normalize(jobId, tenant, ps[k - 1], uuids(k - 1), now);
      if |prev| == k - 1 && n.Some? then prev + [n.value] else prev
  }

  /** Storing one more insight extends the stored list. */
  lemma StoredAllSnoc(m: map<string, seq<InsightsRoute.NormalizedPost>>, jobId: string, posts: seq<InsightsRoute.NormalizedPost>, x: InsightsRoute.NormalizedPost)
    ensures var before := StoredAll(m, jobId, posts);
      before[jobId := InsightsRoute.InsightsFor(before, jobId) + [x]] == StoredAll(m, jobId, posts + [x])
  {
    if posts != [] {
      var before := StoredAll(m, jobId, posts);
      var y := InsightsRoute.InsightsFor(m, jobId) + posts + [x];
      assert InsightsRoute.InsightsFor(before, jobId) == InsightsRoute.InsightsFor(m, jobId) + posts;
      assert y == InsightsRoute.InsightsFor(m, jobId) + (posts + [x]);
      assert before[jobId := y] == m[jobId := y];
    } else {
      assert posts + [x] == [x];
    }
  }

  /** The insight map after storing `posts` for a job one by one. */
  function StoredAll(m: map<string, seq<InsightsRoute.NormalizedPost>>, jobId: string, posts: seq<InsightsRoute.NormalizedPost>): (r: map<string, seq<InsightsRoute.NormalizedPost>>)
    ensures posts == [] ==> r == m
    ensures posts != [] ==> r == m[jobId := InsightsRoute.InsightsFor(m, jobId) + posts]
  {
    if posts == [] then m else m[jobId := InsightsRoute.InsightsFor(m, jobId) + posts]
  }

  /**
   * `normalize_and_store`: builds and stores one insight per item, in order;
   * a validation error stops it after the insights already stored.
   */
  method NormalizeAndStore(jobId: string, tenant: string, ps: seq<Processed>, uuids: nat -> string, now: int,
                           store: InsightsRoute.InsightStore) returns (r: Option<seq<InsightsRoute.NormalizedPost>>)
    modifies store
    ensures var posts := Posts(jobId, tenant, ps, uuids, now, |ps|);
      store.insights == StoredAll(old(store.insights), jobId, posts) &&
      (r.Some? <==> |posts| == |ps|) && (r.Some? ==> r.value == posts)
  {
    var insights: seq<InsightsRoute.NormalizedPost> := [];
    var i := 0;
    while i < |ps|
      invariant 0 <= i <= |ps|
      invariant insights == Posts(jobId, tenant, ps, uuids, now, i) && |insights| == i
      invariant store.insights == StoredAll(old(store.insights), jobId, insights)
    {
      var n := Normalize(jobId, tenant, ps[i], uuids(i), now);
      PostsNext(jobId, tenant, ps, uuids, now, i);
      if n.None? {
        PostsStop(jobId, tenant, ps, uuids, now, i + 1, |ps|);
        return None;
      }
      StoredAllSnoc(old(store.insights), jobId, insights, n.value);
      store.StoreInsight(jobId, n.value);
      insights := insights + [n.value];
      i := i + 1;
    }
    r := Some(insights);
  }

  /** The next item adds its insight when it validates and nothing otherwise. */
  lemma PostsNext(jobId: string, tenant: string, ps: seq<Processed>, uuids: nat -> string, now: int, i: nat)
    requires i < |ps| && |Posts(jobId, tenant, ps, uuids, now, i)| == i
    ensures var n := Normalize(jobId, tenant, ps[i], uuids(i), now);
      Posts(jobId, tenant, ps, uuids, now, i + 1) ==
        Posts(jobId, tenant, ps, uuids, now, i) + (if n.Some? then [n.value] else [])
  {
  }

  /** Once an item fails validation, later items add nothing. */
  lemma {:induction false} PostsStop(jobId: string, tenant: string, ps: seq<Processed>, uuids: nat -> string, now: int, k: nat, k': nat)
    requires 0 < k <= k' <= |ps| && |Posts(jobId, tenant, ps, uuids, now, k)| < k
    ensures Posts(jobId, tenant, ps, uuids, now, k') == Posts(jobId, tenant, ps, uuids, now, k)
    decreases k' - k
  {
    if k < k' {
      PostsStop(jobId, tenant, ps, uuids, now, k + 1, k');
    }
  }

  // ------------------------------------------------------------ events

  /** `EventType(t)` for a listed value, partial_result for any other. */
  function EventTypeOf(t: string): (r: Events.EventType)
    ensures Events.ParseEventType(t).Some? ==> Events.EventTypeValue(r) == t
    ensures Events.ParseEventType(t).None? ==> r == Events.PartialResult
  {
    var parsed := Events.ParseEventType(t);
    if parsed.Some? then parsed.value else Events.PartialResult
  }

  /** Every listed type string maps to its own type. */
  lemma EventTypeOfListed(e: Events.EventType)
    ensures EventTypeOf(Events.EventTypeValue(e)) == e
  {
    Events.ParseEventTypeComplete(e);
  }

  /** The event `emit_event` publishes. */
  function Emit(jobId: string, tenant: string, t: string, data: map<string, string>, now: int): (e: Events.JobEvent)
    ensures e.jobId == jobId && e.tenant == tenant && e.eventType == EventTypeOf(t) && e.data == Some(data)
  {
    Events.JobEvent(EventTypeOf(t), jobId, tenant, now, Some(data), None)
  }

  // ------------------------------------------------------------ the task

  /** What raises out of the task's try block. */
  datatype Failure = AccountsNotIterable | ContentNotSliceable | InvalidInsight

  datatype Outcome = Succeeded(insightsCount: nat) | Failed(reason: Failure)

  /** The updates, events and stored insights of one run, and how it ended. */
  datatype Run = Run(updates: seq<StatusUpdate>, events: seq<Events.JobEvent>,
                     stored: seq<InsightsRoute.NormalizedPost>, outcome: Outcome)

  /** The task's collaborators; `describe` is `str(e)`, `now` the clock, `elapsed` the run time in ms. */
  datatype Env = Env(sv: Services, scrapers: Scrapers, hash: string -> int, uuids: nat -> string,
                     describe: Failure -> string, now: int, elapsed: nat)

  /** Stage 1: the submitted items when there are any, else the scraped ones. */
  function ItemsOf(data: Payload.JobData, env: Env): (r: Option<seq<Item>>)
    ensures data.items.Some? && data.items.value != [] ==> r == Some(Imported(data.items.value))
  {
    if data.items.Some? && data.items.value != [] then Some(Imported(data.items.value))
    else if data.accounts.None? then None
    else Some(ScrapedFrom(data.accounts.value, env.scrapers))
  }

  function StartEvent(data: Payload.JobData, env: Env): Events.JobEvent
  {
    Emit(data.jobId, data.tenant, "processing.started",
         map["stage" := "ingesting", "message" := "Starting content ingestion"], env.now)
  }

  /** The except branch: mark the job failed (progress back to 0) and emit an error event. */
  function FailRun(data: Payload.JobData, env: Env, us: seq<StatusUpdate>, es: seq<Events.JobEvent>,
                   stored: seq<InsightsRoute.NormalizedPost>, f: Failure): Run
  {
    var msg := env.describe(f);
    Run(us + [StatusUpdate(JobsRoute.Failed, 0, None, None, None, Some(msg))],
        es + [Emit(data.jobId, data.tenant, "error", map["error" := msg], env.now)],
        stored, Failed(f))
  }

  /** The updates up to entering enrichment, for the items of stage 1. */
  function EarlyUpdates(items: seq<Item>, sv: Services): seq<StatusUpdate>
  {
    [Status(JobsRoute.Ingesting, 10), StatusUpdate(JobsRoute.Processing, 30, Some(|items|), None, None, None)] +
    LoopUpdates(items, sv, |items|) + [Status(JobsRoute.Enriching, 80)]
  }

  /** `process_ingestion_job`, run to completion or into its except branch. */
  function Pipeline(data: Payload.JobData, env: Env): Run
  {
    var items := ItemsOf(data, env);
    if items.None? then
      FailRun(data, env, [Status(JobsRoute.Ingesting, 10)], [StartEvent(data, env)], [], AccountsNotIterable)
    else Stages(data, env, items.value)
  }

  /** From the item loop on, for the items of stage 1. */
  function Stages(data: Payload.JobData, env: Env, items: seq<Item>): Run
  {
    var survivors := Survivors(items, env.sv, |items|);
    var us := EarlyUpdates(items, env.sv);
    var es := [StartEvent(data, env), NlpCompletedEvent(data, env, |survivors|)];
    var deduped := DedupPrefix(survivors, env.hash, |survivors|);
    if deduped.None? then FailRun(data, env, us, es, [], ContentNotSliceable)
    else Finish(data, env, us, es, WithSpam(deduped.value))
  }

  function NlpCompletedEvent(data: Payload.JobData, env: Env, processed: nat): Events.JobEvent
  {
    Emit(data.jobId, data.tenant, "nlp.completed", map["items_processed" := Text.NatToString(processed)], env.now)
  }

  function CompleteEvent(data: Payload.JobData, env: Env, count: nat): Events.JobEvent
  {
    Emit(data.jobId, data.tenant, "complete",
         map["insights_count" := Text.NatToString(count), "processing_time_ms" := Text.NatToString(env.elapsed)], env.now)
  }

  /** Stage 4 and completion, for the deduplicated and spam-marked items. */
  function Finish(data: Payload.JobData, env: Env, us: seq<StatusUpdate>, es: seq<Events.JobEvent>, marked: seq<Processed>): Run
  {
    var posts := Posts(data.jobId, data.tenant, marked, env.uuids, env.now, |marked|);
    var us' := us + [Status(JobsRoute.Enriching, 90)];
    if |posts| < |marked| then FailRun(data, env, us', es, posts, InvalidInsight)
    else
      Run(us' + [StatusUpdate(JobsRoute.Completed, 100, None, Some(|marked|), Some(env.elapsed), None)],
          es + [CompleteEvent(data, env, |posts|)], posts, Succeeded(|posts|))
  }

  /** The except branch, run. */
  method Fail(jobs: JobsRoute.MockJobStore, ghost base: map<string, JobsRoute.MockJob>, data: Payload.JobData, env: Env,
              log: seq<StatusUpdate>, events: seq<Events.JobEvent>, stored: seq<InsightsRoute.NormalizedPost>, f: Failure)
    returns (run: Run)
    requires jobs.Valid() && jobs.jobs == ApplyAll(base, data.jobId, log, env.now)
    modifies jobs
    ensures jobs.Valid() && jobs.order == old(jobs.order)
    ensures run == FailRun(data, env, log, events, stored, f)
    ensures jobs.jobs == ApplyAll(base, data.jobId, run.updates, env.now)
  {
    var msg := env.describe(f);
    var log' := Record(jobs, base, data.jobId, log, StatusUpdate(JobsRoute.Failed, 0, None, None, None, Some(msg)), env.now);
    var events' := events + [Emit(data.jobId, data.tenant, "error", map["error" := msg], env.now)];
    run := Run(log', events', stored, Failed(f));
  }

  /** The item loop: NLP and OCR per item, one progress update per processed item. */
  method ProcessItems(items: seq<Item>, sv: Services, jobs: JobsRoute.MockJobStore, ghost base: map<string, JobsRoute.MockJob>,
                      jobId: string, log: seq<StatusUpdate>, now: int) returns (survivors: seq<Processed>, log': seq<StatusUpdate>)
    requires jobs.Valid() && jobs.jobs == ApplyAll(base, jobId, log, now)
    modifies jobs
    ensures jobs.Valid() && jobs.order == old(jobs.order)
    ensures survivors == Survivors(items, sv, |items|)
    ensures log' == log + LoopUpdates(items, sv, |items|) && jobs.jobs == ApplyAll(base, jobId, log', now)
  {
    log' := log;
    survivors := [];
    var i := 0;
    while i < |items|
      invariant 0 <= i <= |items|
      invariant survivors == Survivors(items, sv, i)
      invariant log' == log + LoopUpdates(items, sv, i)
      invariant jobs.Valid() && jobs.order == old(jobs.order) && jobs.jobs == ApplyAll(base, jobId, log', now)
    {
      var p := ProcessItem(items[i], sv);
      if p.Some? {
        var u := StatusUpdate(JobsRoute.Processing, ItemProgress(i, |items|), None, Some(i + 1), None, None);
        assert log + LoopUpdates(items, sv, i + 1) == (log + LoopUpdates(items, sv, i)) + [u];
        survivors := survivors + [p.value];
        log' := Record(jobs, base, jobId, log', u, now);
      }
      i := i + 1;
    }
  }

  /** Stage 4 and completion. */
  method FinishRun(data: Payload.JobData, env: Env, jobs: JobsRoute.MockJobStore, store: InsightsRoute.InsightStore,
                   ghost base: map<string, JobsRoute.MockJob>, log: seq<StatusUpdate>, events: seq<Events.JobEvent>,
                   marked: seq<Processed>) returns (run: Run)
    requires jobs.Valid() && jobs.jobs == ApplyAll(base, data.jobId, log, env.now)
    modifies jobs, store
    ensures run == Finish(data, env, log, events, marked)
    ensures jobs.Valid() && jobs.order == old(jobs.order)
    ensures jobs.jobs == ApplyAll(base, data.jobId, run.updates, env.now)
    ensures store.insights == StoredAll(old(store.insights), data.jobId, run.stored)
  {
    var log' := Record(jobs, base, data.jobId, log, Status(JobsRoute.Enriching, 90), env.now);
    var posts := NormalizeAndStore(data.jobId, data.tenant, marked, env.uuids, env.now, store);
    if posts.None? {
      run := Fail(jobs, base, data, env, log', events, Posts(data.jobId, data.tenant, marked, env.uuids, env.now, |marked|), InvalidInsight);
      return;
    }
    log' := Record(jobs, base, data.jobId, log',
                   StatusUpdate(JobsRoute.Completed, 100, None, Some(|marked|), Some(env.elapsed), None), env.now);
    run := Run(log', events + [CompleteEvent(data, env, |posts.value|)], posts.value, Succeeded(|posts.value|));
  }

  /** Stages 2 to 4 for the items of stage 1. */
  method RunStages(data: Payload.JobData, env: Env, items: seq<Item>, jobs: JobsRoute.MockJobStore, store: InsightsRoute.InsightStore,
                   ghost base: map<string, JobsRoute.MockJob>, log: seq<StatusUpdate>) returns (run: Run)
    requires jobs.Valid() && log == [Status(JobsRoute.Ingesting, 10)] && jobs.jobs == ApplyAll(base, data.jobId, log, env.now)
    modifies jobs, store
    ensures run == Stages(data, env, items)
    ensures jobs.Valid() && jobs.order == old(jobs.order)
    ensures jobs.jobs == ApplyAll(base, data.jobId, run.updates, env.now)
    ensures store.insights == StoredAll(old(store.insights), data.jobId, run.stored)
  {
    var log' := Record(jobs, base, data.jobId, log, StatusUpdate(JobsRoute.Processing, 30, Some(|items|), None, None, None), env.now);
    var survivors;
    survivors, log' := ProcessItems(items, env.sv, jobs, base, data.jobId, log', env.now);
    log' := Record(jobs, base, data.jobId, log', Status(JobsRoute.Enriching, 80), env.now);
    assert log' == EarlyUpdates(items, env.sv);
    var events := [StartEvent(data, env), NlpCompletedEvent(data, env, |survivors|)];
    var deduped := DeduplicateItems(survivors, env.hash);
    if deduped.None? {
      run := Fail(jobs, base, data, env, log', events, [], ContentNotSliceable);
      return;
    }
    var marked := MarkSpam(deduped.value);
    run := FinishRun(data, env, jobs, store, base, log', events, marked);
  }

  /**
   * `process_ingestion_job`: the job record receives the run's updates in
   * order and the insight store receives the run's insights.
   */
  method ProcessIngestionJob(data: Payload.JobData, env: Env, jobs: JobsRoute.MockJobStore, store: InsightsRoute.InsightStore)
    returns (run: Run)
    requires jobs.Valid()
    modifies jobs, store
    ensures run == Pipeline(data, env)
    ensures jobs.Valid() && jobs.order == old(jobs.order)
    ensures jobs.jobs == ApplyAll(old(jobs.jobs), data.jobId, run.updates, env.now)
    ensures store.insights == StoredAll(old(store.insights), data.jobId, run.stored)
  {
    ghost var base := jobs.jobs;
    var log := Record(jobs, base, data.jobId, [], Status(JobsRoute.Ingesting, 10), env.now);
    var items: seq<Item>;
    if data.items.Some? && data.items.value != [] {
      items := Imported(data.items.value);
    } else {
      var scraped := ScrapeContent(data.accounts, data.keywords, env.scrapers);
      if scraped.None? {
        run := Fail(jobs, base, data, env, log, [StartEvent(data, env)], [], AccountsNotIterable);
        return;
      }
      items := scraped.value;
    }
    assert ItemsOf(data, env) == Some(items);
    run := RunStages(data, env, items, jobs, store, base, log);
  }

  // ------------------------------------------------------------ properties of a run

  /** The updates a run sends after entering enrichment, read off how it ended. */
  function Closing(r: Run, env: Env): seq<StatusUpdate>
  {
    match r.outcome
    case Failed(f) =>
      (if f == InvalidInsight then [Status(JobsRoute.Enriching, 90)] else []) +
      [StatusUpdate(JobsRoute.Failed, 0, None, None, None, Some(env.describe(f)))]
    case Succeeded(_) =>
      [Status(JobsRoute.Enriching, 90),
       StatusUpdate(JobsRoute.Completed, 100, None, Some(|r.stored|), Some(env.elapsed), None)]
  }

  lemma FinishUpdates(data: Payload.JobData, env: Env, us: seq<StatusUpdate>, es: seq<Events.JobEvent>, marked: seq<Processed>)
    ensures Finish(data, env, us, es, marked).updates == us + Closing(Finish(data, env, us, es, marked), env)
    ensures Finish(data, env, us, es, marked).outcome.Failed? ==> Finish(data, env, us, es, marked).outcome.reason == InvalidInsight
    ensures |Finish(data, env, us, es, marked).stored| <= |marked|
    ensures Finish(data, env, us, es, marked).outcome.Failed? ==>
      Finish(data, env, us, es, marked).events == es + [Emit(data.jobId, data.tenant, "error", map["error" := env.describe(InvalidInsight)], env.now)]
  {
    var posts := Posts(data.jobId, data.tenant, marked, env.uuids, env.now, |marked|);
    var e90 := Status(JobsRoute.Enriching, 90);
    var r := Finish(data, env, us, es, marked);
    if |posts| < |marked| {
      assert r.updates == us + [e90] + [StatusUpdate(JobsRoute.Failed, 0, None, None, None, Some(env.describe(InvalidInsight)))];
    } else {
      assert |r.stored| == |marked|;
    }
  }

  lemma StagesUpdates(data: Payload.JobData, env: Env, items: seq<Item>)
    ensures Stages(data, env, items).updates == EarlyUpdates(items, env.sv) + Closing(Stages(data, env, items), env)
    ensures Stages(data, env, items).outcome != Failed(AccountsNotIterable)
    ensures |Stages(data, env, items).stored| <= |items|
    ensures Stages(data, env, items).outcome.Failed? ==>
      var r := Stages(data, env, items);
      |r.events| >= 3 && r.events[|r.events| - 1] ==
        Emit(data.jobId, data.tenant, "error", map["error" := env.describe(r.outcome.reason)], env.now)
  {
    var survivors := Survivors(items, env.sv, |items|);
    var us := EarlyUpdates(items, env.sv);
    var es := [StartEvent(data, env), NlpCompletedEvent(data, env, |survivors|)];
    var deduped := DedupPrefix(survivors, env.hash, |survivors|);
    if deduped.Some? {
      FinishUpdates(data, env, us, es, WithSpam(deduped.value));
    }
  }

  /** The updates of a run: stage 1's, the item loop's and enrichment's, then how it closed. */
  lemma PipelineUpdates(data: Payload.JobData, env: Env)
    ensures ItemsOf(data, env).None? ==>
      Pipeline(data, env).outcome == Failed(AccountsNotIterable) &&
      Pipeline(data, env).updates == [Status(JobsRoute.Ingesting, 10)] + Closing(Pipeline(data, env), env)
    ensures ItemsOf(data, env).Some? ==>
      Pipeline(data, env).outcome != Failed(AccountsNotIterable) &&
      Pipeline(data, env).updates == EarlyUpdates(ItemsOf(data, env).value, env.sv) + Closing(Pipeline(data, env), env) &&
      |Pipeline(data, env).stored| <= |ItemsOf(data, env).value|
    ensures Pipeline(data, env).outcome.Failed? ==>
      var r := Pipeline(data, env);
      |r.events| >= 2 && r.events[|r.events| - 1] ==
        Emit(data.jobId, data.tenant, "error", map["error" := env.describe(r.outcome.reason)], env.now)
  {
    var items := ItemsOf(data, env);
    if items.Some? {
      StagesUpdates(data, env, items.value);
    }
  }
  /** Up to enrichment: 10, then 30 with the item count, the loop's updates, then 80; never decreasing. */
  lemma EarlyUpdatesShape(items: seq<Item>, sv: Services)
    ensures |EarlyUpdates(items, sv)| >= 3
    ensures EarlyUpdates(items, sv)[0] == Status(JobsRoute.Ingesting, 10)
    ensures EarlyUpdates(items, sv)[1] == StatusUpdate(JobsRoute.Processing, 30, Some(|items|), None, None, None)
    ensures EarlyUpdates(items, sv)[|EarlyUpdates(items, sv)| - 1] == Status(JobsRoute.Enriching, 80)
    ensures forall a :: 2 <= a < |EarlyUpdates(items, sv)| - 1 ==>
      EarlyUpdates(items, sv)[a].status == JobsRoute.Processing && EarlyUpdates(items, sv)[a].itemsTotal.None?
    ensures forall a :: 0 <= a < |EarlyUpdates(items, sv)| ==>
      EarlyUpdates(items, sv)[a].progress <= 80 &&
      (EarlyUpdates(items, sv)[a].itemsProcessed.Some? ==> EarlyUpdates(items, sv)[a].itemsProcessed.value <= |items|)
    ensures forall a, b :: 0 <= a < b < |EarlyUpdates(items, sv)| ==>
      EarlyUpdates(items, sv)[a].progress <= EarlyUpdates(items, sv)[b].progress
  {
    var l := LoopUpdates(items, sv, |items|);
    var e := EarlyUpdates(items, sv);
    LoopUpdatesShape(items, sv, |items|);
    assert |e| == |l| + 3;
    forall a | 2 <= a < |e| - 1 ensures e[a] == l[a - 2] {
    }
    forall a, b | 0 <= a < b < |e| ensures e[a].progress <= e[b].progress {
      if 2 <= a && b < |e| - 1 {
        assert e[a] == l[a - 2] && e[b] == l[b - 2];
      }
    }
  }

  /** A run that got past stage 1, as `PipelineUpdates` describes it. */
  ghost predicate ClosedAfter(r: Run, items: seq<Item>, sv: Services, env: Env)
  {
    r.updates == EarlyUpdates(items, sv) + Closing(r, env) && |r.stored| <= |items|
  }

  lemma RunProgress(r: Run, items: seq<Item>, sv: Services, env: Env)
    requires ClosedAfter(r, items, sv, env)
    ensures var m := if r.outcome.Failed? then |r.updates| - 1 else |r.updates|;
      forall a, b :: 0 <= a < b < m ==> r.updates[a].progress <= r.updates[b].progress
  {
    var pre := EarlyUpdates(items, sv);
    var post := Closing(r, env);
    EarlyUpdatesShape(items, sv);
    forall a, b | 0 <= a < b < (if r.outcome.Failed? then |r.updates| - 1 else |r.updates|)
      ensures r.updates[a].progress <= r.updates[b].progress
    {
      if b < |pre| {
        assert r.updates[a] == pre[a] && r.updates[b] == pre[b];
      } else if a < |pre| {
        assert r.updates[a] == pre[a] && r.updates[b] == post[b - |pre|];
      } else {
        assert r.updates[a] == post[a - |pre|] && r.updates[b] == post[b - |pre|];
      }
    }
  }

  lemma RunProcessedBounded(r: Run, items: seq<Item>, sv: Services, env: Env)
    requires ClosedAfter(r, items, sv, env)
    ensures forall a :: 0 <= a < |r.updates| && r.updates[a].itemsProcessed.Some? ==>
      r.updates[a].itemsProcessed.value <= |items|
  {
    var pre := EarlyUpdates(items, sv);
    var post := Closing(r, env);
    EarlyUpdatesShape(items, sv);
    forall a | 0 <= a < |r.updates| && r.updates[a].itemsProcessed.Some?
      ensures r.updates[a].itemsProcessed.value <= |items|
    {
      if a < |pre| {
        assert r.updates[a] == pre[a];
      } else {
        assert r.updates[a] == post[a - |pre|];
      }
    }
  }

  lemma RunStagesShape(r: Run, items: seq<Item>, sv: Services, env: Env)
    requires ClosedAfter(r, items, sv, env) && r.outcome.Succeeded?
    ensures var us := r.updates;
      |us| >= 5 && us[0] == Status(JobsRoute.Ingesting, 10) &&
      us[1] == StatusUpdate(JobsRoute.Processing, 30, Some(|items|), None, None, None) &&
      (forall a :: 2 <= a < |us| - 3 ==> us[a].status == JobsRoute.Processing && us[a].itemsTotal.None?) &&
      us[|us| - 3] == Status(JobsRoute.Enriching, 80) && us[|us| - 2] == Status(JobsRoute.Enriching, 90) &&
      us[|us| - 1] == StatusUpdate(JobsRoute.Completed, 100, None, Some(|r.stored|), Some(env.elapsed), None)
  {
    var e := EarlyUpdates(items, sv);
    EarlyUpdatesShape(items, sv);
    forall a | 0 <= a < |e| ensures r.updates[a] == e[a] {
    }
  }

  /** Until a failure resets it, the reported progress never goes down. */
  lemma ProgressNeverDecreases(data: Payload.JobData, env: Env)
    ensures var r := Pipeline(data, env);
      var m := if r.outcome.Failed? then |r.updates| - 1 else |r.updates|;
      forall a, b :: 0 <= a < b < m ==> r.updates[a].progress <= r.updates[b].progress
  {
    PipelineUpdates(data, env);
    var items := ItemsOf(data, env);
    if items.Some? {
      RunProgress(Pipeline(data, env), items.value, env.sv, env);
    }
  }

  /** A failed run ends with a failed status at progress 0 carrying the error text, and an error event. */
  lemma FailureResetsProgress(data: Payload.JobData, env: Env)
    requires Pipeline(data, env).outcome.Failed?
    ensures var r := Pipeline(data, env); var msg := env.describe(r.outcome.reason);
      |r.updates| >= 2 && r.updates[|r.updates| - 1] == StatusUpdate(JobsRoute.Failed, 0, None, None, None, Some(msg)) &&
      |r.events| >= 2 && r.events[|r.events| - 1].eventType == Events.Error &&
      r.events[|r.events| - 1].data == Some(map["error" := msg])
  {
    PipelineUpdates(data, env);
    EventTypeOfListed(Events.Error);
    var r := Pipeline(data, env);
    var closing := Closing(r, env);
    assert closing[|closing| - 1] == StatusUpdate(JobsRoute.Failed, 0, None, None, None, Some(env.describe(r.outcome.reason)));
    assert r.updates[|r.updates| - 1] == closing[|closing| - 1];
  }

  /**
   * A successful run goes ingesting(10), processing(30) with the item count,
   * the per-item processing updates, enriching(80), enriching(90) and
   * completed(100) with the number of stored insights and the run time.
   */
  lemma SuccessStages(data: Payload.JobData, env: Env)
    requires Pipeline(data, env).outcome.Succeeded?
    ensures ItemsOf(data, env).Some?
    ensures var r := Pipeline(data, env); var us := r.updates; var n := |ItemsOf(data, env).value|;
      |us| >= 5 && us[0] == Status(JobsRoute.Ingesting, 10) &&
      us[1] == StatusUpdate(JobsRoute.Processing, 30, Some(n), None, None, None) &&
      (forall a :: 2 <= a < |us| - 3 ==> us[a].status == JobsRoute.Processing && us[a].itemsTotal.None?) &&
      us[|us| - 3] == Status(JobsRoute.Enriching, 80) && us[|us| - 2] == Status(JobsRoute.Enriching, 90) &&
      us[|us| - 1] == StatusUpdate(JobsRoute.Completed, 100, None, Some(|r.stored|), Some(env.elapsed), None)
  {
    PipelineUpdates(data, env);
    RunStagesShape(Pipeline(data, env), ItemsOf(data, env).value, env.sv, env);
  }

  /** No update reports more processed items than stage 1 produced. */
  lemma ItemsProcessedBounded(data: Payload.JobData, env: Env)
    ensures var us := Pipeline(data, env).updates;
      forall a :: 0 <= a < |us| && us[a].itemsProcessed.Some? ==>
        ItemsOf(data, env).Some? && us[a].itemsProcessed.value <= |ItemsOf(data, env).value|
  {
    PipelineUpdates(data, env);
    var items := ItemsOf(data, env);
    if items.Some? {
      RunProcessedBounded(Pipeline(data, env), items.value, env.sv, env);
    }
  }

  /** Without items, a job with no account list fails in stage 1, whatever its keywords. */
  lemma KeywordOnlyJobFails(data: Payload.JobData, env: Env)
    requires !(data.items.Some? && data.items.value != []) && data.accounts.None?
    ensures Pipeline(data, env).outcome == Failed(AccountsNotIterable)
    ensures Pipeline(data, env).updates ==
      [Status(JobsRoute.Ingesting, 10), StatusUpdate(JobsRoute.Failed, 0, None, None, None, Some(env.describe(AccountsNotIterable)))]
  {
  }

  /**
   * A successful run stores one insight per item that NLP and OCR processed,
   * in order, flagged as `deduplicate_items` and `classify_spam` decide.
   */
  lemma InsightsFollowItems(data: Payload.JobData, env: Env)
    requires Pipeline(data, env).outcome.Succeeded?
    ensures ItemsOf(data, env).Some?
    ensures var r := Pipeline(data, env); var its := ItemsOf(data, env).value;
      var s := Survivors(its, env.sv, |its|);
      r.outcome.insightsCount == |r.stored| == |s| &&
      forall i :: 0 <= i < |s| ==>
        ContentText(s[i].item).Some? &&
        r.stored[i].contentText == ContentText(s[i].item).value &&
        r.stored[i].postId == PostId(s[i].item, env.uuids(i)) &&
        r.stored[i].ocrText == s[i].ocrText && r.stored[i].jobId == data.jobId &&
        r.stored[i].isSpam == ClassifySpam(r.stored[i].contentText) &&
        (r.stored[i].isDuplicate <==> HashSeenBefore(s, env.hash, i))
  {
    SucceededParts(data, env);
    var its := ItemsOf(data, env).value;
    var s := Survivors(its, env.sv, |its|);
    var r := Pipeline(data, env);
    forall i | 0 <= i < |s|
      ensures ContentText(s[i].item).Some? &&
        r.stored[i].contentText == ContentText(s[i].item).value &&
        r.stored[i].postId == PostId(s[i].item, env.uuids(i)) &&
        r.stored[i].ocrText == s[i].ocrText && r.stored[i].jobId == data.jobId &&
        r.stored[i].isSpam == ClassifySpam(r.stored[i].contentText) &&
        (r.stored[i].isDuplicate <==> HashSeenBefore(s, env.hash, i))
    {
      StoredItem(data.jobId, data.tenant, s, env.hash, env.uuids, env.now, r.stored, i);
    }
  }

  /** A successful run stores the posts of the deduplicated, spam-marked survivors, all of them. */
  lemma SucceededParts(data: Payload.JobData, env: Env)
    requires Pipeline(data, env).outcome.Succeeded?
    ensures ItemsOf(data, env).Some?
    ensures var its := ItemsOf(data, env).value; var s := Survivors(its, env.sv, |its|);
      var d := DedupPrefix(s, env.hash, |s|);
      d.Some? &&
      var marked := WithSpam(d.value); var r := Pipeline(data, env);
      r.stored == Posts(data.jobId, data.tenant, marked, env.uuids, env.now, |marked|) &&
      r.outcome.insightsCount == |r.stored| == |marked|
  {
  }

  /** Stored insight `i` is the normalized, flagged survivor `i`. */
  lemma StoredItem(jobId: string, tenant: string, s: seq<Processed>, hash: string -> int, uuids: nat -> string, now: int,
                   stored: seq<InsightsRoute.NormalizedPost>, i: nat)
    requires DedupPrefix(s, hash, |s|).Some?
    requires var marked := WithSpam(DedupPrefix(s, hash, |s|).value);
      stored == Posts(jobId, tenant, marked, uuids, now, |marked|) && |stored| == |marked|
    requires i < |s|
    ensures ContentText(s[i].item).Some? &&
      stored[i].contentText == ContentText(s[i].item).value &&
      stored[i].postId == PostId(s[i].item, uuids(i)) &&
      stored[i].ocrText == s[i].ocrText && stored[i].jobId == jobId &&
      stored[i].isSpam == ClassifySpam(stored[i].contentText) &&
      (stored[i].isDuplicate <==> HashSeenBefore(s, hash, i))
  {
    var d := DedupPrefix(s, hash, |s|).value;
    DedupFlagAt(s, hash, |s|, i);
    var marked := WithSpam(d);
    assert marked[i] == SpamMarked(d[i]);
    assert Normalize(jobId, tenant, marked[i], uuids(i), now) == Some(stored[i]);
  }

  /** Applying a successful run's updates, as `SuccessStages` lists them, to a job record. */
  lemma CompletedRecord(m: map<string, JobsRoute.MockJob>, jobId: string, us: seq<StatusUpdate>, now: int, n: nat, stored: nat, elapsed: nat)
    requires jobId in m
    requires |us| >= 5 && us[0] == Status(JobsRoute.Ingesting, 10) &&
      us[1] == StatusUpdate(JobsRoute.Processing, 30, Some(n), None, None, None) &&
      (forall a :: 2 <= a < |us| - 3 ==> us[a].status == JobsRoute.Processing && us[a].itemsTotal.None?) &&
      us[|us| - 3] == Status(JobsRoute.Enriching, 80) && us[|us| - 2] == Status(JobsRoute.Enriching, 90) &&
      us[|us| - 1] == StatusUpdate(JobsRoute.Completed, 100, None, Some(stored), Some(elapsed), None)
    ensures var j := ApplyAll(m, jobId, us, now)[jobId];
      j.status == JobsRoute.Completed && j.progressPercent == 100 && j.itemsTotal == n && j.itemsProcessed == stored &&
      j.processingTimeMs == Some(elapsed) && j.startedAt == Some(now) && j.completedAt == Some(now)
  {
    MiddleUpdates(us);
    CompletedRecordOf(m, jobId, us, now, n, stored, elapsed);
  }

  /** Between the first two updates and the last, none starts ingesting or sets the total. */
  lemma MiddleUpdates(us: seq<StatusUpdate>)
    requires |us| >= 5
    requires forall a :: 2 <= a < |us| - 3 ==> us[a].status == JobsRoute.Processing && us[a].itemsTotal.None?
    requires us[|us| - 3] == Status(JobsRoute.Enriching, 80) && us[|us| - 2] == Status(JobsRoute.Enriching, 90)
    ensures forall a :: 2 <= a < |us| - 1 ==> us[a].itemsTotal.None? && us[a].status != JobsRoute.Ingesting
  {
    forall a | 2 <= a < |us| - 1 ensures us[a].itemsTotal.None? && us[a].status != JobsRoute.Ingesting {
      if a >= |us| - 3 {
        assert a == |us| - 3 || a == |us| - 2;
      }
    }
  }

  lemma CompletedRecordOf(m: map<string, JobsRoute.MockJob>, jobId: string, us: seq<StatusUpdate>, now: int, n: nat, stored: nat, elapsed: nat)
    requires jobId in m && |us| >= 3
    requires us[0] == Status(JobsRoute.Ingesting, 10) && us[1] == StatusUpdate(JobsRoute.Processing, 30, Some(n), None, None, None)
    requires forall a :: 2 <= a < |us| - 1 ==> us[a].itemsTotal.None? && us[a].status != JobsRoute.Ingesting
    requires us[|us| - 1] == StatusUpdate(JobsRoute.Completed, 100, None, Some(stored), Some(elapsed), None)
    ensures var j := ApplyAll(m, jobId, us, now)[jobId];
      j.status == JobsRoute.Completed && j.progressPercent == 100 && j.itemsTotal == n && j.itemsProcessed == stored &&
      j.processingTimeMs == Some(elapsed) && j.startedAt == Some(now) && j.completedAt == Some(now)
  {
    var head, rest := us[..2], us[2..|us| - 1];
    assert us == head + rest + [us[|us| - 1]];
    ApplyAllSnoc(m, jobId, head + rest, us[|us| - 1], now);
    ApplyAllAppend(m, jobId, head, rest, now);
    var m1 := ApplyAll(m, jobId, head, now);
    assert head[..1] == [us[0]];
    assert m1[jobId].itemsTotal == n && m1[jobId].startedAt == Some(now);
    forall i | 0 <= i < |rest| ensures rest[i].itemsTotal.None? && rest[i].status != JobsRoute.Ingesting {
      assert rest[i] == us[i + 2];
    }
    ApplyAllKeeps(m1, jobId, rest, now);
  }

  /**
   * After a successful run the job record says completed at 100% with the
   * item count of stage 1, the stored insight count, the run time, and the
   * start and completion times.
   */
  lemma FinalJobRecord(data: Payload.JobData, env: Env, m: map<string, JobsRoute.MockJob>)
    requires Pipeline(data, env).outcome.Succeeded? && data.jobId in m
    ensures ItemsOf(data, env).Some?
    ensures var r := Pipeline(data, env); var j := ApplyAll(m, data.jobId, r.updates, env.now)[data.jobId];
      j.status == JobsRoute.Completed && j.progressPercent == 100 &&
      j.itemsTotal == |ItemsOf(data, env).value| && j.itemsProcessed == |r.stored| &&
      j.processingTimeMs == Some(env.elapsed) && j.startedAt == Some(env.now) && j.completedAt == Some(env.now)
  {
    SuccessStages(data, env);
    var r := Pipeline(data, env);
    CompletedRecord(m, data.jobId, r.updates, env.now, |ItemsOf(data, env).value|, |r.stored|, env.elapsed);
  }
}
