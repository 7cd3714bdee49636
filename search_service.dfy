/**
 * The Meilisearch wrapper: the flattening of an insight into a search
 * document, the batch indexing with its empty guard, the filter string a
 * search sends, and the result a search reports. The engine itself (the
 * index, its tasks and its ranking) is a parameter.
 */
module SearchService {
  import opened Wrappers
  import opened Json
  import Text
  import Seqs

  /* ---------------- documents ---------------- */

  /** One indexed document, the flattened form of an insight. */
  datatype Document = Document(
    postId: Value,
    jobId: Value,
    tenant: Value,
    contentText: Value,
    ocrText: Value,
    topics: Value,
    topicsText: string,
    keywords: Value,
    entitiesText: string,
    authorName: Value,
    sentimentType: Value,
    sentimentScore: Value,
    platform: Value,
    language: Value,
    isSpam: Value,
    isDuplicate: Value,
    qualityScore: Value,
    createdAt: Value,
    publishedAt: Value)

  /** `e.get("name", "")` of an entity object. */
  function NameOf(e: Value): Value
    requires e.Object?
  {
    Get(e.fields, "name", Str(""))
  }

  /** The number of objects among `items`. */
  function ObjectCount(items: seq<Value>): (n: nat)
    ensures n <= |items|
    ensures (forall i :: 0 <= i < |items| ==> items[i].Object?) ==> n == |items|
  {
    if items == [] then 0
    else
      assert forall i :: 1 <= i < |items| ==> items[1..][i - 1] == items[i];
      (if items[0].Object? then 1 else 0) + ObjectCount(items[1..])
  }

  /**
   * The names of the entity objects, in order, skipping every other entry;
   * None when one of those names is not a string, where `" ".join` raises.
   */
  function EntityNames(items: seq<Value>): (r: Option<seq<string>>)
    ensures r.Some? <==> forall i :: 0 <= i < |items| && items[i].Object? ==> NameOf(items[i]).Str?
    ensures r.Some? ==> |r.value| == ObjectCount(items)
    ensures r.Some? && (forall i :: 0 <= i < |items| ==> items[i].Object?) ==>
      (forall i :: 0 <= i < |items| ==> r.value[i] == NameOf(items[i]).s)
    ensures (forall i :: 0 <= i < |items| ==> !items[i].Object?) ==> r == Some([])
  {
    if items == [] then Some([])
    else
      var rest := EntityNames(items[1..]);
      assert forall i :: 1 <= i < |items| ==> items[1..][i - 1] == items[i];
      if !items[0].Object? then rest
      else if NameOf(items[0]).Str? && rest.Some? then Some([NameOf(items[0]).s] + rest.value)
      else None
  }

  /** `entities_text`: the space-joined names of the entity objects. */
  function EntitiesText(insight: map<string, Value>): (r: Option<string>)
  {
    var items := Iterated(Get(insight, "entities", List([])));
    if items.None? then None
    else
      var names := EntityNames(items.value);
      if names.None? then None else Some(Text.Join(names.value, " "))
  }

  /** The strings of a list, None if one item is not a string. */
  function Strings(items: seq<Value>): (r: Option<seq<string>>)
    ensures r.Some? <==> forall i :: 0 <= i < |items| ==> items[i].Str?
    ensures r.Some? ==> |r.value| == |items| && forall i :: 0 <= i < |items| ==> r.value[i] == items[i].s
  {
    if items == [] then Some([])
    else
      var rest := Strings(items[1..]);
      assert forall i :: 1 <= i < |items| ==> items[1..][i - 1] == items[i];
      if items[0].Str? && rest.Some? then Some([items[0].s] + rest.value) else None
  }

  /**
   * `topics_text`: the space-joined topics of a list, or `str(topics)`
   * otherwise, where `show` is Python's `str()` of a value that is not a string.
   */
  function TopicsText(topics: Value, show: Value -> string): (r: Option<string>)
  {
    if topics.List? then
      var ss := Strings(topics.items);
      if ss.None? then None else Some(Text.Join(ss.value, " "))
    else if topics.Str? then Some(topics.s)
    else Some(show(topics))
  }

  /**
   * `insight.get(outer, {}).get(inner) if isinstance(insight.get(outer), dict)
   * else insight.get(raw)`.
   */
  function Nested(insight: map<string, Value>, outer: string, inner: string, raw: string): Value
  {
    var o := Get(insight, outer, Null);
    if o.Object? then Get(o.fields, inner, Null) else Get(insight, raw, Null)
  }

  /** The nested field wins whenever the outer one is an object, else the raw field is taken as it is. */
  lemma NestedSource(insight: map<string, Value>, outer: string, inner: string, raw: string)
    ensures outer in insight && insight[outer].Object? ==>
      Nested(insight, outer, inner, raw) == (if inner in insight[outer].fields then insight[outer].fields[inner] else Null)
    ensures !(outer in insight && insight[outer].Object?) ==>
      Nested(insight, outer, inner, raw) == (if raw in insight then insight[raw] else Null)
  {
  }

  /**
   * `_prepare_document`; None where it raises (entities that cannot be
   * iterated, an entity name or a topic that is not a string).
   */
  function PrepareDocument(insight: map<string, Value>, show: Value -> string): (r: Option<Document>)
    ensures r.Some? <==> EntitiesText(insight).Some? && TopicsText(Get(insight, "topics", List([])), show).Some?
    ensures r.Some? ==> r.value.entitiesText == EntitiesText(insight).value
    ensures r.Some? ==> r.value.topicsText == TopicsText(Get(insight, "topics", List([])), show).value
    ensures r.Some? ==> r.value.authorName == Nested(insight, "author", "name", "author")
    ensures r.Some? ==> r.value.sentimentType == Nested(insight, "sentiment", "type", "sentiment")
    ensures r.Some? ==> r.value.sentimentScore == Nested(insight, "sentiment", "score", "sentiment_score")
    ensures r.Some? ==> r.value.platform == Nested(insight, "provenance", "platform", "platform")
  {
    var topics := Get(insight, "topics", List([]));
    var entitiesText := EntitiesText(insight);
    var topicsText := TopicsText(topics, show);
    if entitiesText.None? || topicsText.None? then None
    else
      Some(Document(
        postId := Get(insight, "post_id", Null),
        jobId := Get(insight, "job_id", Null),
        tenant := Get(insight, "tenant", Null),
        contentText := Get(insight, "content_text", Str("")),
        ocrText := Get(insight, "ocr_text", Str("")),
        topics := topics,
        topicsText := topicsText.value,
        keywords := Get(insight, "keywords", List([])),
        entitiesText := entitiesText.value,
        authorName := Nested(insight, "author", "name", "author"),
        sentimentType := Nested(insight, "sentiment", "type", "sentiment"),
        sentimentScore := Nested(insight, "sentiment", "score", "sentiment_score"),
        platform := Nested(insight, "provenance", "platform", "platform"),
        language := Get(insight, "language", Null),
        isSpam := Get(insight, "is_spam", Bool(false)),
        isDuplicate := Get(insight, "is_duplicate", Bool(false)),
        qualityScore := Get(insight, "quality_score", Null),
        createdAt := Get(insight, "created_at", Null),
        publishedAt := Get(insight, "published_at", Null)))
  }

  /** An insight with no keys at all flattens to the documented defaults. */
  lemma PrepareEmpty(show: Value -> string)
    ensures PrepareDocument(map[], show) == Some(Document(
      Null, Null, Null, Str(""), Str(""), List([]), "", List([]), "",
      Null, Null, Null, Null, Null, Bool(false), Bool(false), Null, Null, Null))
  {
    assert EntityNames([]) == Some([]);
    assert Strings([]) == Some([]);
  }

  /** Entities none of which is an object flatten to an empty text, however many there are. */
  lemma EntitiesWithoutObjects(insight: map<string, Value>)
    requires "entities" in insight && insight["entities"].List?
    requires forall i :: 0 <= i < |insight["entities"].items| ==> !insight["entities"].items[i].Object?
    ensures EntitiesText(insight) == Some("")
  {
  }

  /** A list of entity objects with string names flattens to their names, space-joined in order. */
  lemma EntitiesAllNamed(insight: map<string, Value>, names: seq<string>)
    requires "entities" in insight && insight["entities"].List?
    requires |insight["entities"].items| == |names|
    requires forall i :: 0 <= i < |names| ==>
      insight["entities"].items[i].Object? && NameOf(insight["entities"].items[i]) == Str(names[i])
    ensures EntitiesText(insight) == Some(Text.Join(names, " "))
  {
    var items := insight["entities"].items;
    var r := EntityNames(items);
    assert r.Some?;
    assert r.value == names;
  }

  /** The documents of a batch, in order; None as soon as one of them raises. */
  function Preparer(show: Value -> string): map<string, Value> -> Option<Document>
  {
    insight => PrepareDocument(insight, show)
  }

  /** The documents of a batch, in order; None as soon as one of them raises. */
  function PrepareAll(insights: seq<map<string, Value>>, show: Value -> string): Option<seq<Document>>
  {
    Seqs.AllOrNone(insights, Preparer(show))
  }

  /** The batch prepares exactly when every insight does, and then yields their documents in order. */
  lemma PrepareAllMeans(insights: seq<map<string, Value>>, show: Value -> string)
    ensures var r := PrepareAll(insights, show);
      (r.Some? <==> forall i :: 0 <= i < |insights| ==> PrepareDocument(insights[i], show).Some?) &&
      (r.Some? ==> (|r.value| == |insights| &&
        forall i :: 0 <= i < |insights| ==> r.value[i] == PrepareDocument(insights[i], show).value))
  {
    Seqs.AllOrNoneMeans(insights, Preparer(show));
  }

  /**
   * `index_insights`. `client` says whether the engine is configured and
   * `indexed` whether adding the documents and waiting for the task
   * succeeds. `sent` is what reached the index: nothing when there is no
   * client or no insight, or when preparing a document raises.
   */
  method IndexInsights(client: bool, insights: seq<map<string, Value>>, show: Value -> string,
                       indexed: seq<Document> -> bool)
    returns (ok: bool, sent: Option<seq<Document>>)
    ensures !client || insights == [] ==> !ok && sent.None?
    ensures sent.Some? <==> client && insights != [] && PrepareAll(insights, show).Some?
    ensures sent.Some? ==> sent.value == PrepareAll(insights, show).value
    ensures ok <==> sent.Some? && indexed(sent.value)
  {
    if !client || insights == [] {
      return false, None;
    }
    var documents: seq<Document> := [];
    var i := 0;
    while i < |insights|
      invariant 0 <= i <= |insights|
      invariant Seqs.AllOrNone(insights[..i], Preparer(show)) == Some(documents)
    {
      assert insights[..i + 1][..i] == insights[..i];
      var doc := PrepareDocument(insights[i], show);
      assert Preparer(show)(insights[i]) == doc;
      if doc.None? {
        PrepareAllMeans(insights, show);
        return false, None;
      }
      documents := documents + [doc.value];
      i := i + 1;
    }
    assert insights[..i] == insights;
    ok := indexed(documents);
    sent := Some(documents);
  }

  /** `index_insight`: one insight is indexed as a batch of one, so the empty guard never applies. */
  method IndexInsight(client: bool, insight: map<string, Value>, show: Value -> string,
                      indexed: seq<Document> -> bool)
    returns (ok: bool, sent: Option<seq<Document>>)
    ensures sent.Some? <==> client && PrepareDocument(insight, show).Some?
    ensures sent.Some? ==> sent.value == [PrepareDocument(insight, show).value]
    ensures ok <==> sent.Some? && indexed(sent.value)
  {
    ok, sent := IndexInsights(client, [insight], show, indexed);
    PrepareAllMeans([insight], show);
  }

  /* ---------------- filters ---------------- */

  /**
   * The clause of one filter: a boolean lower-cased and unquoted, a list
   * after `IN` in its `str()` form, anything else quoted with no escaping.
   */
  function Clause(key: string, value: Value, show: Value -> string): (c: string)
    ensures Text.StartsWith(c, key + " ")
  {
    var c :=
      if value.Bool? then key + " = " + (if value.b then "true" else "false")
      else if value.List? then key + " IN " + show(value)
      else key + " = '" + (if value.Str? then value.s else show(value)) + "'";
    assert c[..|key + " "|] == key + " ";
    c
  }

  /** A string value is quoted as it is, so the clause ends with the value and a quote. */
  lemma ClauseQuotesStrings(key: string, s: string, show: Value -> string)
    ensures Text.EndsWith(Clause(key, Str(s), show), s + "'")
    ensures Text.StartsWith(Clause(key, Str(s), show), key + " = '")
  {
    var c := Clause(key, Str(s), show);
    assert c == key + " = '" + s + "'";
    assert c[|c| - |s + "'"|..] == s + "'";
    assert c[..|key + " = '"|] == key + " = '";
  }

  /** `if tenant:` — a tenant that is given and not empty. */
  predicate HasTenant(tenant: Option<string>)
  {
    tenant.Some? && tenant.value != ""
  }

  function TenantClause(t: string): string
  {
    "tenant = '" + t + "'"
  }

  /** The clauses of a search: the tenant's first when one is given, then one per filter in order. */
  function FilterParts(tenant: Option<string>, filters: seq<(string, Value)>, show: Value -> string): (parts: seq<string>)
    ensures |parts| == (if HasTenant(tenant) then 1 else 0) + |filters|
    ensures HasTenant(tenant) ==> parts[0] == TenantClause(tenant.value)
    ensures forall i :: 0 <= i < |filters| ==>
      parts[i + (if HasTenant(tenant) then 1 else 0)] == Clause(filters[i].0, filters[i].1, show)
  {
    if filters == [] then (if HasTenant(tenant) then [TenantClause(tenant.value)] else [])
    else
      var init := FilterParts(tenant, filters[..|filters| - 1], show);
      assert forall i :: 0 <= i < |filters| - 1 ==> filters[..|filters| - 1][i] == filters[i];
      init + [Clause(filters[|filters| - 1].0, filters[|filters| - 1].1, show)]
  }

  /** `filter_string`: the clauses joined with " AND ", or None when there are none. */
  function FilterString(tenant: Option<string>, filters: seq<(string, Value)>, show: Value -> string): (r: Option<string>)
    ensures r.None? <==> !HasTenant(tenant) && filters == []
  {
    var parts := FilterParts(tenant, filters, show);
    if parts == [] then None else Some(Text.Join(parts, " AND "))
  }

  /**
   * The filter string starts with the tenant clause when a tenant is given,
   * and every filter's clause occurs in it.
   */
  lemma FilterStringClauses(tenant: Option<string>, filters: seq<(string, Value)>, show: Value -> string)
    ensures HasTenant(tenant) ==>
      FilterString(tenant, filters, show).Some? &&
      Text.StartsWith(FilterString(tenant, filters, show).value, TenantClause(tenant.value))
    ensures forall i :: 0 <= i < |filters| ==>
      FilterString(tenant, filters, show).Some? &&
      Text.Contains(FilterString(tenant, filters, show).value, Clause(filters[i].0, filters[i].1, show))
  {
    var parts := FilterParts(tenant, filters, show);
    if HasTenant(tenant) {
      Text.JoinStartsWith(parts, " AND ");
    }
    forall i | 0 <= i < |filters|
      ensures Text.Contains(Text.Join(parts, " AND "), Clause(filters[i].0, filters[i].1, show))
    {
      Text.JoinContains(parts, " AND ", i + (if HasTenant(tenant) then 1 else 0));
    }
  }

  /** A single clause is the whole filter string. */
  lemma FilterStringSingle(tenant: Option<string>, key: string, value: Value, show: Value -> string)
    ensures !HasTenant(tenant) ==> FilterString(tenant, [(key, value)], show) == Some(Clause(key, value, show))
    ensures HasTenant(tenant) ==>
      FilterString(tenant, [], show) == Some(TenantClause(tenant.value))
  {
  }

  /* ---------------- search ---------------- */

  /** The options a search sends along with its query. */
  datatype SearchRequest = SearchRequest(limit: int, offset: int, filter: Option<string>, sort: Option<seq<string>>)

  /** What the engine answers: its hits and, when it reports them, the estimated total and the time taken. */
  datatype EngineResult = EngineResult(hits: seq<Value>, estimatedTotalHits: Option<int>, processingTimeMs: Option<int>)

  /** The dict a search returns: the hits with their metadata, or an error with no hits. */
  datatype SearchResult =
    | Found(hits: seq<Value>, total: int, processingTimeMs: int, query: string)
    | SearchFailed(error: string)
  {
    function Hits(): seq<Value> { if Found? then hits else [] }
    function Total(): int { if Found? then total else 0 }
    /** `result.get("processing_time_ms", 0)`. */
    function TimeMs(): int { if Found? then processingTimeMs else 0 }
  }

  /** The message of a search with no engine configured. */
  const Unavailable := "Meilisearch not available"

  /**
   * The outcome of a search. `engine` is the index's search call, an error
   * carrying `str(e)` where it raises.
   */
  function SearchOutcome(client: bool, query: string, tenant: Option<string>, filters: seq<(string, Value)>,
                         sort: Option<seq<string>>, limit: int, offset: int, show: Value -> string,
                         engine: (string, SearchRequest) -> Result<EngineResult, string>): (r: SearchResult)
    ensures !client ==> r == SearchFailed(Unavailable) && r.Hits() == [] && r.Total() == 0
    ensures r.Found? ==> r.query == query
    ensures r.Found? ==> engine(query, SearchRequest(limit, offset, FilterString(tenant, filters, show), sort)).Ok?
    ensures r.Found? ==>
      var res := engine(query, SearchRequest(limit, offset, FilterString(tenant, filters, show), sort)).value;
      r.hits == res.hits &&
      (res.estimatedTotalHits.None? ==> r.total == |res.hits|) &&
      (res.estimatedTotalHits.Some? ==> r.total == res.estimatedTotalHits.value)
    ensures client && r.SearchFailed? ==>
      engine(query, SearchRequest(limit, offset, FilterString(tenant, filters, show), sort)).Err?
  {
    if !client then SearchFailed(Unavailable)
    else
      match engine(query, SearchRequest(limit, offset, FilterString(tenant, filters, show), sort))
      case Err(e) => SearchFailed(e)
      case Ok(res) =>
        Found(res.hits,
              if res.estimatedTotalHits.Some? then res.estimatedTotalHits.value else |res.hits|,
              if res.processingTimeMs.Some? then res.processingTimeMs.value else 0,
              query)
  }

  /** `search`: builds the clauses one by one, then asks the engine. */
  method Search(client: bool, query: string, tenant: Option<string>, filters: seq<(string, Value)>,
                sort: Option<seq<string>>, limit: int, offset: int, show: Value -> string,
                engine: (string, SearchRequest) -> Result<EngineResult, string>)
    returns (r: SearchResult)
    ensures r == SearchOutcome(client, query, tenant, filters, sort, limit, offset, show, engine)
  {
    if !client {
      return SearchFailed(Unavailable);
    }
    var parts: seq<string> := [];
    if tenant.Some? && tenant.value != "" {
      parts := parts + [TenantClause(tenant.value)];
    }
    var i := 0;
    while i < |filters|
      invariant 0 <= i <= |filters|
      invariant parts == FilterParts(tenant, filters[..i], show)
    {
      assert filters[..i + 1][..i] == filters[..i];
      var (key, value) := filters[i];
      parts := parts + [Clause(key, value, show)];
      i := i + 1;
    }
    assert filters[..i] == filters;
    var filter := if parts != [] then Some(Text.Join(parts, " AND ")) else None;
    var answer := engine(query, SearchRequest(limit, offset, filter, sort));
    if answer.Err? {
      return SearchFailed(answer.error);
    }
    var res := answer.value;
    var total := if res.estimatedTotalHits.Some? then res.estimatedTotalHits.value else |res.hits|;
    var ms := if res.processingTimeMs.Some? then res.processingTimeMs.value else 0;
    r := Found(res.hits, total, ms, query);
  }

  /** The filter `delete_by_job` deletes by: the clause a search would use for the job id. */
  function DeleteFilter(jobId: string): (f: string)
    ensures forall show: Value -> string :: f == Clause("job_id", Str(jobId), show)
  {
    "job_id = '" + jobId + "'"
  }

  /**
   * `delete_by_job`: False with no client or when the deletion (`delete`
   * of the filter, with the wait for its task) fails.
   */
  function DeleteByJob(client: bool, jobId: string, delete: string -> bool): (ok: bool)
    ensures ok ==> client
    ensures client ==> (ok <==> delete(DeleteFilter(jobId)))
  {
    client && delete(DeleteFilter(jobId))
  }
}
