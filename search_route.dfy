/**
 * `GET /search`: the query's bounds, the filters and sort order it hands
 * to the search service, and the response it builds from the result.
 */
module SearchRoute {
  import opened Wrappers
  import opened Json
  import SearchService
  import Text

  const Unprocessable: int := 422

  /** The query parameters as they arrive; None where one is not given. */
  datatype RawSearchQuery = RawSearchQuery(
    q: Option<string>,
    tenant: Option<string>,
    sentiment: Option<string>,
    platform: Option<string>,
    language: Option<string>,
    excludeSpam: Option<bool>,
    sort: Option<string>,
    limit: Option<int>,
    offset: Option<int>)

  /** The query parameters once their defaults are filled in. */
  datatype SearchQuery = SearchQuery(
    q: string,
    tenant: Option<string>,
    sentiment: Option<string>,
    platform: Option<string>,
    language: Option<string>,
    excludeSpam: bool,
    sort: Option<string>,
    limit: int,
    offset: int)

  /** `q` is required with length at least 1, `limit` is in 1..100, `offset` is at least 0. */
  predicate InBounds(raw: RawSearchQuery)
  {
    raw.q.Some? && |raw.q.value| >= 1 &&
    (raw.limit.Some? ==> 1 <= raw.limit.value <= 100) &&
    (raw.offset.Some? ==> raw.offset.value >= 0)
  }

  /** The query's validation: 422 out of bounds, else the defaults 50, 0 and spam excluded. */
  function ValidateQuery(raw: RawSearchQuery): (r: Result<SearchQuery, int>)
    ensures r.Ok? <==> InBounds(raw)
    ensures r.Err? ==> r.error == Unprocessable
    ensures r.Ok? ==> r.value.q == raw.q.value && 1 <= r.value.limit <= 100 && r.value.offset >= 0
    ensures r.Ok? && raw.limit.None? ==> r.value.limit == 50
    ensures r.Ok? && raw.offset.None? ==> r.value.offset == 0
    ensures r.Ok? ==> (r.value.excludeSpam <==> raw.excludeSpam != Some(false))
  {
    if !InBounds(raw) then Err(Unprocessable)
    else
      Ok(SearchQuery(
        raw.q.value, raw.tenant, raw.sentiment, raw.platform, raw.language,
        if raw.excludeSpam.Some? then raw.excludeSpam.value else true,
        raw.sort,
        if raw.limit.Some? then raw.limit.value else 50,
        if raw.offset.Some? then raw.offset.value else 0))
  }

  /** `if x:` on an optional string parameter. */
  predicate Given(x: Option<string>)
  {
    x.Some? && x.value != ""
  }

  /** The filters the endpoint can add, in the order it adds them. */
  datatype FilterKey = SentimentType | Platform | Language | IsSpam

  function KeyName(k: FilterKey): string
  {
    match k
    case SentimentType => "sentiment_type"
    case Platform => "platform"
    case Language => "language"
    case IsSpam => "is_spam"
  }

  function KeyRank(k: FilterKey): nat
  {
    match k
    case SentimentType => 0
    case Platform => 1
    case Language => 2
    case IsSpam => 3
  }

  /** The filter the endpoint adds under `k`, if it adds one. */
  function FilterFor(k: FilterKey, query: SearchQuery): Option<Value>
  {
    match k
    case SentimentType => if Given(query.sentiment) then Some(Str(query.sentiment.value)) else None
    case Platform => if Given(query.platform) then Some(Str(query.platform.value)) else None
    case Language => if Given(query.language) then Some(Str(query.language.value)) else None
    case IsSpam => if query.excludeSpam then Some(Bool(false)) else None
  }

  function Flag(b: bool): nat { if b then 1 else 0 }

  /** The entry the endpoint adds under `k`: none or one. */
  function Entry(k: FilterKey, query: SearchQuery): (e: seq<(FilterKey, Value)>)
    ensures |e| == Flag(FilterFor(k, query).Some?)
    ensures forall i :: 0 <= i < |e| ==> e[i] == (k, FilterFor(k, query).value)
  {
    match FilterFor(k, query)
    case None => []
    case Some(v) => [(k, v)]
  }

  /** Entries in strictly increasing key order, each with a rank in `lo..hi - 1`. */
  predicate Ranked(fs: seq<(FilterKey, Value)>, lo: int, hi: int)
  {
    (forall i :: 0 <= i < |fs| ==> lo <= KeyRank(fs[i].0) < hi) &&
    (forall i, j :: 0 <= i < j < |fs| ==> KeyRank(fs[i].0) < KeyRank(fs[j].0))
  }

  lemma RankedConcat(a: seq<(FilterKey, Value)>, b: seq<(FilterKey, Value)>, lo: int, mid: int, hi: int)
    requires lo <= mid <= hi && Ranked(a, lo, mid) && Ranked(b, mid, hi)
    ensures Ranked(a + b, lo, hi)
  {
    var c := a + b;
    forall i | 0 <= i < |c| ensures lo <= KeyRank(c[i].0) < hi {
      if i < |a| { assert c[i] == a[i]; } else { assert c[i] == b[i - |a|]; }
    }
    forall i, j | 0 <= i < j < |c| ensures KeyRank(c[i].0) < KeyRank(c[j].0) {
      if i < |a| { assert c[i] == a[i]; } else { assert c[i] == b[i - |a|]; }
      if j < |a| { assert c[j] == a[j]; } else { assert c[j] == b[j - |a|]; }
    }
  }

  lemma EntryFacts(k: FilterKey, query: SearchQuery)
    ensures Ranked(Entry(k, query), KeyRank(k), KeyRank(k) + 1)
    ensures Faithful(Entry(k, query), query)
  {
  }

  /** Every entry carries the filter of its key. */
  predicate Faithful(fs: seq<(FilterKey, Value)>, query: SearchQuery)
  {
    forall i :: 0 <= i < |fs| ==> FilterFor(fs[i].0, query) == Some(fs[i].1)
  }

  lemma FaithfulConcat(a: seq<(FilterKey, Value)>, b: seq<(FilterKey, Value)>, query: SearchQuery)
    requires Faithful(a, query) && Faithful(b, query)
    ensures Faithful(a + b, query)
  {
    var c := a + b;
    forall i | 0 <= i < |c| ensures FilterFor(c[i].0, query) == Some(c[i].1) {
      if i < |a| { assert c[i] == a[i]; } else { assert c[i] == b[i - |a|]; }
    }
  }

  /**
   * The filters dict in insertion order: each entry is the filter of its
   * key, the keys come in the order sentiment_type, platform, language,
   * is_spam, and every given parameter has its entry.
   */
  function RouteEntries(query: SearchQuery): seq<(FilterKey, Value)>
  {
    Entry(SentimentType, query) + Entry(Platform, query) + Entry(Language, query) + Entry(IsSpam, query)
  }

  lemma RouteEntriesMeans(query: SearchQuery)
    ensures Faithful(RouteEntries(query), query)
    ensures Ranked(RouteEntries(query), 0, 4)
    ensures |RouteEntries(query)| ==
      Flag(Given(query.sentiment)) + Flag(Given(query.platform)) + Flag(Given(query.language)) + Flag(query.excludeSpam)
  {
    EntriesJoined(query);
  }

  lemma EntriesJoined(query: SearchQuery)
    ensures var fs := Entry(SentimentType, query) + Entry(Platform, query) + Entry(Language, query) + Entry(IsSpam, query);
      Faithful(fs, query) && Ranked(fs, 0, 4) &&
      |fs| == Flag(Given(query.sentiment)) + Flag(Given(query.platform)) + Flag(Given(query.language)) + Flag(query.excludeSpam)
  {
    EntriesRanked(query);
    EntriesFaithful(query);
  }

  lemma EntriesRanked(query: SearchQuery)
    ensures Ranked(Entry(SentimentType, query) + Entry(Platform, query) + Entry(Language, query) + Entry(IsSpam, query), 0, 4)
  {
    var a := Entry(SentimentType, query);
    var b := Entry(Platform, query);
    var c := Entry(Language, query);
    var d := Entry(IsSpam, query);
    EntryFacts(SentimentType, query);
    EntryFacts(Platform, query);
    EntryFacts(Language, query);
    EntryFacts(IsSpam, query);
    RankedConcat4(a, b, c, d);
  }

  lemma RankedConcat4(a: seq<(FilterKey, Value)>, b: seq<(FilterKey, Value)>, c: seq<(FilterKey, Value)>, d: seq<(FilterKey, Value)>)
    requires Ranked(a, 0, 1) && Ranked(b, 1, 2) && Ranked(c, 2, 3) && Ranked(d, 3, 4)
    ensures Ranked(a + b + c + d, 0, 4)
  {
    RankedConcat(a, b, 0, 1, 2);
    RankedConcat(a + b, c, 0, 2, 3);
    RankedConcat(a + b + c, d, 0, 3, 4);
  }

  lemma EntriesFaithful(query: SearchQuery)
    ensures Faithful(Entry(SentimentType, query) + Entry(Platform, query) + Entry(Language, query) + Entry(IsSpam, query), query)
  {
    var a := Entry(SentimentType, query);
    var b := Entry(Platform, query);
    var c := Entry(Language, query);
    var d := Entry(IsSpam, query);
    EntryFacts(SentimentType, query);
    EntryFacts(Platform, query);
    EntryFacts(Language, query);
    EntryFacts(IsSpam, query);
    var ab := a + b;
    FaithfulConcat(a, b, query);
    var abc := ab + c;
    FaithfulConcat(ab, c, query);
    FaithfulConcat(abc, d, query);
  }

  /** Entries with their keys spelled as the search service receives them. */
  function Spelled(es: seq<(FilterKey, Value)>): (fs: seq<(string, Value)>)
    ensures |fs| == |es|
    ensures forall i :: 0 <= i < |fs| ==> fs[i] == (KeyName(es[i].0), es[i].1)
  {
    seq(|es|, i requires 0 <= i < |es| => (KeyName(es[i].0), es[i].1))
  }

  lemma SpelledConcat(a: seq<(FilterKey, Value)>, b: seq<(FilterKey, Value)>)
    ensures Spelled(a + b) == Spelled(a) + Spelled(b)
  {
  }

  /** The filters dict as the search service receives it. */
  function RouteFilters(query: SearchQuery): seq<(string, Value)>
  {
    Spelled(RouteEntries(query))
  }

  /** The number of entries the endpoint adds before the one under `k`. */
  function EntriesBefore(k: FilterKey, query: SearchQuery): nat
  {
    match k
    case SentimentType => 0
    case Platform => Flag(Given(query.sentiment))
    case Language => Flag(Given(query.sentiment)) + Flag(Given(query.platform))
    case IsSpam => Flag(Given(query.sentiment)) + Flag(Given(query.platform)) + Flag(Given(query.language))
  }

  /** Every filter the endpoint adds is in the dict, behind those of the keys before it. */
  lemma EntryPresent(query: SearchQuery, k: FilterKey)
    requires FilterFor(k, query).Some?
    ensures EntriesBefore(k, query) < |RouteEntries(query)|
    ensures RouteEntries(query)[EntriesBefore(k, query)] == (k, FilterFor(k, query).value)
  {
    var a := Entry(SentimentType, query);
    var b := Entry(Platform, query);
    var c := Entry(Language, query);
    var d := Entry(IsSpam, query);
    var fs := RouteEntries(query);
    assert fs == a + b + c + d;
    var i := EntriesBefore(k, query);
    match k
    case SentimentType => assert fs[i] == a[0];
    case Platform => assert fs[i] == b[0];
    case Language => assert fs[i] == c[0];
    case IsSpam => assert fs[i] == d[0];
  }

  /** Spam is excluded by default, and then the filters end with `is_spam = False`. */
  lemma ExcludeSpamLast(query: SearchQuery)
    ensures query.excludeSpam <==>
      (RouteFilters(query) != [] && RouteFilters(query)[|RouteFilters(query)| - 1] == ("is_spam", Bool(false)))
  {
    var es := RouteEntries(query);
    var fs := RouteFilters(query);
    RouteEntriesMeans(query);
    if query.excludeSpam {
      EntryPresent(query, IsSpam);
    } else if fs != [] {
      assert FilterFor(es[|es| - 1].0, query) == Some(es[|es| - 1].1);
      assert es[|es| - 1].0 != IsSpam;
    }
  }

  /** `sort_list`: a one-element list when a sort is given, else None. */
  function SortList(sort: Option<string>): (r: Option<seq<string>>)
    ensures r.Some? <==> Given(sort)
    ensures r.Some? ==> r.value == [sort.value]
  {
    if Given(sort) then Some([sort.value]) else None
  }

  datatype SearchResponse = SearchResponse(hits: seq<Value>, total: int, processingTimeMs: int, query: string)

  /**
   * `search_insights`: 422 out of bounds, else the search's hits, total
   * and time, each 0 or empty where the search reports an error, and the
   * query echoed.
   */
  function SearchAnswer(raw: RawSearchQuery, client: bool, show: Value -> string,
                          engine: (string, SearchService.SearchRequest) -> Result<SearchService.EngineResult, string>)
    : (r: Result<SearchResponse, int>)
    ensures r.Err? <==> !InBounds(raw)
    ensures r.Err? ==> r.error == Unprocessable
    ensures r.Ok? ==> r.value.query == raw.q.value
    ensures r.Ok? && !client ==> r.value.hits == [] && r.value.total == 0 && r.value.processingTimeMs == 0
  {
    match ValidateQuery(raw)
    case Err(e) => Err(e)
    case Ok(query) =>
      var result := SearchService.SearchOutcome(
        client, query.q, query.tenant, RouteFilters(query), SortList(query.sort),
        query.limit, query.offset, show, engine);
      Ok(SearchResponse(result.Hits(), result.Total(), result.TimeMs(), query.q))
  }

  /** The filters dict, filled by successive conditional assignments. */
  method BuildFilters(query: SearchQuery) returns (filters: seq<(string, Value)>)
    ensures filters == RouteFilters(query)
  {
    var a := Entry(SentimentType, query);
    var b := Entry(Platform, query);
    var c := Entry(Language, query);
    var d := Entry(IsSpam, query);
    assert RouteEntries(query) == a + b + c + d;
    filters := [];
    if query.sentiment.Some? && query.sentiment.value != "" {
      filters := filters + [("sentiment_type", Str(query.sentiment.value))];
      assert a == [(SentimentType, Str(query.sentiment.value))];
    }
    assert filters == Spelled(a);
    if query.platform.Some? && query.platform.value != "" {
      filters := filters + [("platform", Str(query.platform.value))];
      assert b == [(Platform, Str(query.platform.value))];
    }
    SpelledConcat(a, b);
    assert filters == Spelled(a + b);
    if query.language.Some? && query.language.value != "" {
      filters := filters + [("language", Str(query.language.value))];
      assert c == [(Language, Str(query.language.value))];
    }
    SpelledConcat(a + b, c);
    assert filters == Spelled(a + b + c);
    if query.excludeSpam {
      filters := filters + [("is_spam", Bool(false))];
      assert d == [(IsSpam, Bool(false))];
    }
    SpelledConcat(a + b + c, d);
  }

  /** `search_insights`, calling the search service. */
  method SearchInsights(raw: RawSearchQuery, client: bool, show: Value -> string,
                        engine: (string, SearchService.SearchRequest) -> Result<SearchService.EngineResult, string>)
    returns (r: Result<SearchResponse, int>)
    ensures r == SearchAnswer(raw, client, show, engine)
  {
    var v := ValidateQuery(raw);
    if v.Err? {
      return Err(v.error);
    }
    var query := v.value;
    var filters := BuildFilters(query);
    var sortList := if query.sort.Some? && query.sort.value != "" then Some([query.sort.value]) else None;
    var result := SearchService.Search(client, query.q, query.tenant, filters, sortList, query.limit, query.offset, show, engine);
    r := Ok(SearchResponse(result.Hits(), result.Total(), result.TimeMs(), query.q));
  }

  /** The request a search sends for a validated query. */
  function RequestOf(query: SearchQuery, show: Value -> string): SearchService.SearchRequest
  {
    SearchService.SearchRequest(
      query.limit, query.offset,
      SearchService.FilterString(query.tenant, RouteFilters(query), show),
      SortList(query.sort))
  }

  /** With only `q` given, the search excludes spam and nothing else, 50 results from the first. */
  lemma DefaultRequest(q: string, show: Value -> string)
    requires |q| >= 1
    ensures ValidateQuery(RawSearchQuery(Some(q), None, None, None, None, None, None, None, None)).Ok?
    ensures RequestOf(ValidateQuery(RawSearchQuery(Some(q), None, None, None, None, None, None, None, None)).value, show)
      == SearchService.SearchRequest(50, 0, Some("is_spam = false"), None)
  {
    var query := ValidateQuery(RawSearchQuery(Some(q), None, None, None, None, None, None, None, None)).value;
    ExcludeSpamLast(query);
    assert RouteFilters(query) == [("is_spam", Bool(false))];
    SearchService.FilterStringSingle(None, "is_spam", Bool(false), show);
    assert SearchService.Clause("is_spam", Bool(false), show) == "is_spam = false";
  }

  /** A tenant's clause comes before those of the filters, and every filter of the endpoint's reaches the filter string. */
  lemma TenantFirst(query: SearchQuery, show: Value -> string)
    requires Given(query.tenant)
    ensures RequestOf(query, show).filter.Some?
    ensures Text.StartsWith(RequestOf(query, show).filter.value, "tenant = '" + query.tenant.value + "'")
    ensures query.excludeSpam ==> Text.Contains(RequestOf(query, show).filter.value, "is_spam = false")
  {
    var fs := RouteFilters(query);
    assert RequestOf(query, show).filter == SearchService.FilterString(query.tenant, fs, show);
    SearchService.FilterStringClauses(query.tenant, fs, show);
    if query.excludeSpam {
      SpamClause(query, show);
    }
  }

  /** Excluding spam puts the `is_spam = false` clause in the filter string. */
  lemma SpamClause(query: SearchQuery, show: Value -> string)
    requires query.excludeSpam
    ensures SearchService.FilterString(query.tenant, RouteFilters(query), show).Some?
    ensures Text.Contains(SearchService.FilterString(query.tenant, RouteFilters(query), show).value, "is_spam = false")
  {
    var fs := RouteFilters(query);
    ExcludeSpamLast(query);
    var i := |fs| - 1;
    assert fs[i] == ("is_spam", Bool(false));
    SearchService.FilterStringClauses(query.tenant, fs, show);
    assert SearchService.Clause(fs[i].0, fs[i].1, show) == "is_spam = false";
  }

  /** The endpoint answers for a search with no engine as for one that found nothing. */
  lemma UnavailableIsEmpty(raw: RawSearchQuery, show: Value -> string,
                           engine: (string, SearchService.SearchRequest) -> Result<SearchService.EngineResult, string>)
    requires InBounds(raw)
    ensures SearchAnswer(raw, false, show, engine) == Ok(SearchResponse([], 0, 0, raw.q.value))
  {
  }
}
