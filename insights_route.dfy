/**
 * The insights endpoints: the in-memory insight store the worker writes
 * normalised posts into, the filtered and paginated listing with the
 * job-status label, and the per-job summary counts.
 */
module InsightsRoute {
  import opened Wrappers
  import Text
  import Paging
  import Counting
  import JobsRoute

  const NotFound: int := 404
  const Unprocessable: int := 422

  datatype SentimentType = Positive | Negative | Neutral | Mixed

  function SentimentValue(s: SentimentType): string
  {
    match s
    case Positive => "positive"
    case Negative => "negative"
    case Neutral => "neutral"
    case Mixed => "mixed"
  }

  function ParseSentiment(v: string): (r: Option<SentimentType>)
    ensures r.Some? ==> SentimentValue(r.value) == v
  {
    if v == "positive" then Some(Positive)
    else if v == "negative" then Some(Negative)
    else if v == "neutral" then Some(Neutral)
    else if v == "mixed" then Some(Mixed)
    else None
  }

  datatype Entity = Entity(kind: string, name: string, confidence: real)

  datatype Provenance = Provenance(
    sourceUrl: string,
    platform: string,
    fetchMethod: string,
    fetchedAt: int,
    originalId: Option<string>)

  datatype ConfidenceScores = ConfidenceScores(
    sentiment: real,
    language: real,
    topics: real,
    entities: real,
    spam: Option<real>)

  /** The canonical insight record; times are integer timestamps. */
  datatype NormalizedPost = NormalizedPost(
    postId: string,
    jobId: string,
    tenant: string,
    contentText: string,
    ocrText: Option<string>,
    sentiment: SentimentType,
    sentimentScore: real,
    entities: seq<Entity>,
    topics: seq<string>,
    keywords: seq<string>,
    language: string,
    author: Option<string>,
    publishedAt: Option<int>,
    provenance: Provenance,
    confidence: ConfidenceScores,
    isSpam: bool,
    isDuplicate: bool,
    createdAt: int,
    processedAt: int)

  class InsightStore {
    var insights: map<string, seq<NormalizedPost>>

    constructor ()
      ensures insights == map[]
    {
      insights := map[];
    }

    /** `store_insight`: appends to the job's list, creating it on first use. */
    method StoreInsight(jobId: string, insight: NormalizedPost)
      modifies this
      ensures insights == old(insights)[jobId := InsightsFor(old(insights), jobId) + [insight]]
    {
      if jobId !in insights {
        insights := insights[jobId := []];
      }
      insights := insights[jobId := insights[jobId] + [insight]];
    }

    /** `get_insights_for_job`. */
    function InsightsForJob(jobId: string): (r: seq<NormalizedPost>)
      reads this
      ensures r == InsightsFor(insights, jobId)
    {
      InsightsFor(insights, jobId)
    }
  }

  /** The job's list, or the empty list for a job with no insights. */
  function InsightsFor(m: map<string, seq<NormalizedPost>>, jobId: string): (r: seq<NormalizedPost>)
    ensures jobId !in m ==> r == []
    ensures jobId in m ==> r == m[jobId]
  {
    if jobId in m then m[jobId] else []
  }

  // ------------------------------------------------------------ listing

  /** The label of the job's progress: failed is "error", completed or unknown is "complete". */
  function JobStatusLabel(job: Option<JobsRoute.MockJob>): (s: string)
    ensures job.Some? && job.value.status == JobsRoute.Failed ==> s == "error"
    ensures job.Some? && job.value.status == JobsRoute.Completed ==> s == "complete"
    ensures job.Some? && job.value.status != JobsRoute.Failed && job.value.status != JobsRoute.Completed ==> s == "partial"
    ensures job.None? ==> s == "complete"
  {
    if job.None? then "complete"
    else if job.value.status == JobsRoute.Failed then "error"
    else if job.value.status != JobsRoute.Completed then "partial"
    else "complete"
  }

  datatype InsightQuery = InsightQuery(
    sentiment: Option<SentimentType>,
    topic: Option<string>,
    language: Option<string>,
    excludeSpam: bool,
    excludeDuplicates: bool)

  /** The defaults of the query: no filters, spam and duplicates excluded. */
  function DefaultQuery(): InsightQuery
  {
    InsightQuery(None, None, None, true, true)
  }

  predicate Given(s: Option<string>) { s.Some? && s.value != "" }

  /** `topic.lower() in [t.lower() for t in topics]`. */
  predicate HasTopic(p: NormalizedPost, topic: string)
  {
    exists k :: 0 <= k < |p.topics| && Text.Lower(p.topics[k]) == Text.Lower(topic)
  }

  /** An insight survives every active filter of the query. */
  predicate Keeps(p: NormalizedPost, q: InsightQuery)
  {
    (q.sentiment.None? || p.sentiment == q.sentiment.value) &&
    (!Given(q.topic) || HasTopic(p, q.topic.value)) &&
    (!Given(q.language) || Text.Lower(p.language) == Text.Lower(q.language.value)) &&
    (!q.excludeSpam || !p.isSpam) &&
    (!q.excludeDuplicates || !p.isDuplicate)
  }

  /** The chain of list comprehensions: one pass per active filter. */
  function FilterInsights(s: seq<NormalizedPost>, q: InsightQuery): (r: seq<NormalizedPost>)
    ensures |r| <= |s|
    ensures forall p :: p in r <==> p in s && Keeps(p, q)
  {
    if s == [] then []
    else (if Keeps(s[0], q) then [s[0]] else []) + FilterInsights(s[1..], q)
  }

  /** Filtering distributes over concatenation, so it keeps the stored order. */
  lemma {:induction false} FilterConcat(a: seq<NormalizedPost>, b: seq<NormalizedPost>, q: InsightQuery)
    ensures FilterInsights(a + b, q) == FilterInsights(a, q) + FilterInsights(b, q)
    decreases |a|
  {
    if a == [] {
      assert a + b == b;
    } else {
      assert (a + b)[0] == a[0];
      assert (a + b)[1..] == a[1..] + b;
      FilterConcat(a[1..], b, q);
    }
  }

  datatype InsightsResponse = InsightsResponse(
    results: seq<NormalizedPost>,
    page: int,
    limit: int,
    total: nat,
    totalPages: nat,
    jobStatus: string)

  predicate ValidPaging(page: int, limit: int) { page >= 1 && 1 <= limit <= 200 }

  /**
   * `get_insights` over the job's stored list and its registry entry:
   * 422 for bad bounds, 404 when neither exists, else one filtered page.
   */
  function GetInsights(all: seq<NormalizedPost>, job: Option<JobsRoute.MockJob>, page: int, limit: int, q: InsightQuery): (r: Result<InsightsResponse, int>)
    ensures !ValidPaging(page, limit) ==> r == Err(Unprocessable)
    ensures ValidPaging(page, limit) ==> (r == Err(NotFound) <==> job.None? && all == [])
    ensures r.Ok? ==> ValidPaging(page, limit) && r.value.jobStatus == JobStatusLabel(job)
    ensures r.Ok? ==> r.value.total == |FilterInsights(all, q)| && r.value.totalPages == Paging.TotalPages(r.value.total, limit)
    ensures r.Ok? ==> r.value.results == Paging.Page(FilterInsights(all, q), page, limit)
  {
    if !ValidPaging(page, limit) then Err(Unprocessable)
    else if job.None? && all == [] then Err(NotFound)
    else
      var filtered := FilterInsights(all, q);
      Ok(InsightsResponse(Paging.Page(filtered, page, limit), page, limit, |filtered|,
                          Paging.TotalPages(|filtered|, limit), JobStatusLabel(job)))
  }

  /** Every element of a slice of the filtered list is a stored insight passing the filters. */
  lemma SliceOfFiltered(all: seq<NormalizedPost>, q: InsightQuery, start: nat, end: nat)
    ensures var pg := Paging.Slice(FilterInsights(all, q), start, end);
      forall i :: 0 <= i < |pg| ==> pg[i] in all && Keeps(pg[i], q)
  {
    var filtered := FilterInsights(all, q);
    var pg := Paging.Slice(filtered, start, end);
    forall i | 0 <= i < |pg| ensures pg[i] in all && Keeps(pg[i], q) {
      assert pg[i] == filtered[start + i];
    }
  }

  /**
   * Every insight on a page of the listing is a stored insight passing the
   * filters, and a page never holds more than `limit` of them.
   */
  lemma GetInsightsSound(all: seq<NormalizedPost>, q: InsightQuery, page: int, limit: int)
    requires ValidPaging(page, limit)
    ensures var pg := Paging.Page(FilterInsights(all, q), page, limit);
      |pg| <= limit && |FilterInsights(all, q)| <= |all| &&
      (forall i :: 0 <= i < |pg| ==> pg[i] in all && Keeps(pg[i], q))
  {
    var start := Paging.Offset(page, limit);
    var end: nat := start + limit;
    assert end == page * limit;
    assert Paging.Page(FilterInsights(all, q), page, limit) == Paging.Slice(FilterInsights(all, q), start, end);
    SliceOfFiltered(all, q, start, end);
  }

  // ------------------------------------------------------------ summary

  /** One for a post that has the property, zero otherwise. */
  function Flag(b: bool): nat { if b then 1 else 0 }

  function CountSentiment(posts: seq<NormalizedPost>, t: SentimentType): (n: nat)
    ensures n <= |posts|
  {
    if posts == [] then 0
    else CountSentiment(posts[..|posts| - 1], t) + Flag(posts[|posts| - 1].sentiment == t)
  }

  /** The four sentiment counts partition the posts. */
  lemma {:induction false} SentimentCountsSum(posts: seq<NormalizedPost>)
    ensures CountSentiment(posts, Positive) + CountSentiment(posts, Negative) +
            CountSentiment(posts, Neutral) + CountSentiment(posts, Mixed) == |posts|
    decreases |posts|
  {
    if posts != [] {
      SentimentCountsSum(posts[..|posts| - 1]);
    }
  }

  function CountSpam(posts: seq<NormalizedPost>): (n: nat)
    ensures n <= |posts|
  {
    if posts == [] then 0 else CountSpam(posts[..|posts| - 1]) + Flag(posts[|posts| - 1].isSpam)
  }

  function CountDuplicates(posts: seq<NormalizedPost>): (n: nat)
    ensures n <= |posts|
  {
    if posts == [] then 0 else CountDuplicates(posts[..|posts| - 1]) + Flag(posts[|posts| - 1].isDuplicate)
  }

  function EntityKey(e: Entity): string { e.kind + ":" + e.name }

  function EntityKeys(es: seq<Entity>): (ks: seq<string>)
    ensures |ks| == |es| && forall i :: 0 <= i < |es| ==> ks[i] == EntityKey(es[i])
  {
    if es == [] then [] else [EntityKey(es[0])] + EntityKeys(es[1..])
  }

  /** The topic counts after the posts, one bump per listed topic. */
  function TopicCounts(posts: seq<NormalizedPost>): (c: Counting.Counter)
    ensures Counting.WellFormed(c)
  {
    if posts == [] then Counting.Empty()
    else Counting.BumpAll(TopicCounts(posts[..|posts| - 1]), posts[|posts| - 1].topics)
  }

  function EntityCounts(posts: seq<NormalizedPost>): (c: Counting.Counter)
    ensures Counting.WellFormed(c)
  {
    if posts == [] then Counting.Empty()
    else Counting.BumpAll(EntityCounts(posts[..|posts| - 1]), EntityKeys(posts[|posts| - 1].entities))
  }

  /** The language counts: exactly one bump per post. */
  function LanguageCounts(posts: seq<NormalizedPost>): (c: Counting.Counter)
    ensures Counting.WellFormed(c)
  {
    if posts == [] then Counting.Empty()
    else Counting.Bump(LanguageCounts(posts[..|posts| - 1]), posts[|posts| - 1].language)
  }

  datatype InsightsSummary = InsightsSummary(
    totalPosts: nat,
    positive: nat,
    negative: nat,
    neutral: nat,
    mixed: nat,
    topTopics: seq<(string, int)>,
    topEntities: seq<(string, int)>,
    languages: seq<(string, int)>,
    spamRate: real,
    duplicateRate: real)

  /** `count / total if total > 0 else 0`: the share of posts with a flag. */
  function Rate(count: nat, total: nat): (r: real)
    requires count <= total
    ensures 0.0 <= r <= 1.0
    ensures total == 0 ==> r == 0.0
    ensures total > 0 ==> r * total as real == count as real
  {
    if total > 0 then count as real / total as real else 0.0
  }

  /** Extending the prefix by one post adds that post to every tally. */
  lemma PrefixStep(all: seq<NormalizedPost>, i: nat)
    requires i < |all|
    ensures CountSentiment(all[..i + 1], Positive) == CountSentiment(all[..i], Positive) + Flag(all[i].sentiment == Positive)
    ensures CountSentiment(all[..i + 1], Negative) == CountSentiment(all[..i], Negative) + Flag(all[i].sentiment == Negative)
    ensures CountSentiment(all[..i + 1], Neutral) == CountSentiment(all[..i], Neutral) + Flag(all[i].sentiment == Neutral)
    ensures CountSentiment(all[..i + 1], Mixed) == CountSentiment(all[..i], Mixed) + Flag(all[i].sentiment == Mixed)
    ensures TopicCounts(all[..i + 1]) == Counting.BumpAll(TopicCounts(all[..i]), all[i].topics)
    ensures EntityCounts(all[..i + 1]) == Counting.BumpAll(EntityCounts(all[..i]), EntityKeys(all[i].entities))
    ensures LanguageCounts(all[..i + 1]) == Counting.Bump(LanguageCounts(all[..i]), all[i].language)
    ensures CountSpam(all[..i + 1]) == CountSpam(all[..i]) + Flag(all[i].isSpam)
    ensures CountDuplicates(all[..i + 1]) == CountDuplicates(all[..i]) + Flag(all[i].isDuplicate)
  {
    assert all[..i + 1][..i] == all[..i];
  }

  /** The summary of a non-empty list of posts. */
  function SummaryOf(posts: seq<NormalizedPost>): InsightsSummary
    requires posts != []
  {
    InsightsSummary(
      |posts|,
      CountSentiment(posts, Positive), CountSentiment(posts, Negative),
      CountSentiment(posts, Neutral), CountSentiment(posts, Mixed),
      Counting.Top(TopicCounts(posts), 10),
      Counting.Top(EntityCounts(posts), 10),
      Counting.Ranked(LanguageCounts(posts)),
      Rate(CountSpam(posts), |posts|),
      Rate(CountDuplicates(posts), |posts|))
  }

  lemma {:induction false} LanguageTotal(posts: seq<NormalizedPost>)
    ensures Counting.Total(LanguageCounts(posts)) == |posts|
    decreases |posts|
  {
    if posts != [] {
      LanguageTotal(posts[..|posts| - 1]);
      Counting.TotalBump(LanguageCounts(posts[..|posts| - 1]), posts[|posts| - 1].language);
    }
  }

  /** The sentiment breakdown adds up to the number of posts. */
  lemma SummarySentiments(posts: seq<NormalizedPost>)
    requires posts != []
    ensures var s := SummaryOf(posts);
      s.positive + s.negative + s.neutral + s.mixed == s.totalPosts == |posts|
  {
    SentimentCountsSum(posts);
  }

  /** The language counts add up to the number of posts. */
  lemma SummaryLanguages(posts: seq<NormalizedPost>)
    requires posts != []
    ensures Counting.SumCounts(SummaryOf(posts).languages) == |posts|
  {
    var langs := LanguageCounts(posts);
    LanguageTotal(posts);
    Counting.EntriesSum(langs);
    Counting.SumCountsPerm(Counting.Ranked(langs), Counting.Entries(langs));
  }

  /** The top lists hold at most ten entries, largest count first; the rates lie in [0, 1]. */
  lemma SummaryBounds(posts: seq<NormalizedPost>)
    requires posts != []
    ensures var s := SummaryOf(posts); var nt := |TopicCounts(posts).keys|; var ne := |EntityCounts(posts).keys|;
      |s.topTopics| == (if 10 < nt then 10 else nt) && |s.topEntities| == (if 10 < ne then 10 else ne) &&
      (forall i, j :: 0 <= i < j < |s.topTopics| ==> s.topTopics[i].1 >= s.topTopics[j].1) &&
      (forall i, j :: 0 <= i < j < |s.topEntities| ==> s.topEntities[i].1 >= s.topEntities[j].1) &&
      0.0 <= s.spamRate <= 1.0 && 0.0 <= s.duplicateRate <= 1.0
  {
    SummaryTopicBounds(posts);
    SummaryEntityBounds(posts);
    SummaryRates(posts);
  }

  /** Proof step of `SummaryBounds`: the top topics. */
  lemma SummaryTopicBounds(posts: seq<NormalizedPost>)
    requires posts != []
    ensures var top := SummaryOf(posts).topTopics; var nt := |TopicCounts(posts).keys|;
      |top| == (if 10 < nt then 10 else nt) && forall i, j :: 0 <= i < j < |top| ==> top[i].1 >= top[j].1
  {
    var top := Counting.Top(TopicCounts(posts), 10);
    assert SummaryOf(posts).topTopics == top;
  }

  /** Proof step of `SummaryBounds`: the top entities. */
  lemma SummaryEntityBounds(posts: seq<NormalizedPost>)
    requires posts != []
    ensures var top := SummaryOf(posts).topEntities; var ne := |EntityCounts(posts).keys|;
      |top| == (if 10 < ne then 10 else ne) && forall i, j :: 0 <= i < j < |top| ==> top[i].1 >= top[j].1
  {
    var top := Counting.Top(EntityCounts(posts), 10);
    assert SummaryOf(posts).topEntities == top;
  }

  /** Proof step of `SummaryBounds`: the two rates. */
  lemma SummaryRates(posts: seq<NormalizedPost>)
    requires posts != []
    ensures var s := SummaryOf(posts); 0.0 <= s.spamRate <= 1.0 && 0.0 <= s.duplicateRate <= 1.0
  {
    var s := SummaryOf(posts);
    assert s.spamRate == Rate(CountSpam(posts), |posts|);
    assert s.duplicateRate == Rate(CountDuplicates(posts), |posts|);
  }

  /** A topic missing from the summary's top ten occurs in no more posts' topic lists than any listed one. */
  lemma SummaryTopTopics(posts: seq<NormalizedPost>, t: string)
    requires posts != []
    requires t in TopicCounts(posts).keys
    requires forall i :: 0 <= i < |SummaryOf(posts).topTopics| ==> SummaryOf(posts).topTopics[i].0 != t
    ensures var top := SummaryOf(posts).topTopics;
      forall i :: 0 <= i < |top| ==> Counting.CountOf(TopicCounts(posts), t) <= Counting.CountOf(TopicCounts(posts), top[i].0)
  {
    assert SummaryOf(posts).topTopics == Counting.Top(TopicCounts(posts), 10);
    Counting.TopKeyMostFrequent(TopicCounts(posts), 10, t);
  }

  /** An entity missing from the summary's top ten is mentioned no more often than any listed one. */
  lemma SummaryTopEntities(posts: seq<NormalizedPost>, e: string)
    requires posts != []
    requires e in EntityCounts(posts).keys
    requires forall i :: 0 <= i < |SummaryOf(posts).topEntities| ==> SummaryOf(posts).topEntities[i].0 != e
    ensures var top := SummaryOf(posts).topEntities;
      forall i :: 0 <= i < |top| ==> Counting.CountOf(EntityCounts(posts), e) <= Counting.CountOf(EntityCounts(posts), top[i].0)
  {
    assert SummaryOf(posts).topEntities == Counting.Top(EntityCounts(posts), 10);
    Counting.TopKeyMostFrequent(EntityCounts(posts), 10, e);
  }

  /** `get_insights_summary`: 404 for a job without insights, else one pass of counting. */
  method GetInsightsSummary(all: seq<NormalizedPost>) returns (r: Result<InsightsSummary, int>)
    ensures all == [] ==> r == Err(NotFound)
    ensures all != [] ==> r == Ok(SummaryOf(all))
  {
    if all == [] {
      return Err(NotFound);
    }
    var positive, negative, neutral, mixed := 0, 0, 0, 0;
    var topics, entities, languages := Counting.Empty(), Counting.Empty(), Counting.Empty();
    var spam, duplicates := 0, 0;
    var i := 0;
    while i < |all|
      invariant 0 <= i <= |all|
      invariant positive == CountSentiment(all[..i], Positive) && negative == CountSentiment(all[..i], Negative)
      invariant neutral == CountSentiment(all[..i], Neutral) && mixed == CountSentiment(all[..i], Mixed)
      invariant topics == TopicCounts(all[..i]) && entities == EntityCounts(all[..i])
      invariant languages == LanguageCounts(all[..i])
      invariant spam == CountSpam(all[..i]) && duplicates == CountDuplicates(all[..i])
    {
      var p := all[i];
      PrefixStep(all, i);
      positive := positive + Flag(p.sentiment == Positive);
      negative := negative + Flag(p.sentiment == Negative);
      neutral := neutral + Flag(p.sentiment == Neutral);
      mixed := mixed + Flag(p.sentiment == Mixed);
      topics := Counting.BumpEach(topics, p.topics);
      entities := Counting.BumpEach(entities, EntityKeys(p.entities));
      languages := Counting.Bump(languages, p.language);
      spam := spam + Flag(p.isSpam);
      duplicates := duplicates + Flag(p.isDuplicate);
      i := i + 1;
    }
    assert all[..i] == all;
    r := Ok(InsightsSummary(|all|, positive, negative, neutral, mixed,
                            Counting.Top(topics, 10), Counting.Top(entities, 10), Counting.Ranked(languages),
                            Rate(spam, |all|), Rate(duplicates, |all|)));
  }
}
