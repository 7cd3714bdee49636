/**
 * Cold-storage archival: the archive key and payload of a job's insights,
 * retrieval with its decompression rule, listing under a tenant prefix,
 * deletion, and one batch of the retention policy, which groups old
 * insights by job, archives each group and stamps the insights of the
 * groups that made it. The bucket or archive directory is a map from keys
 * to stored objects; JSON, gzip, the clock and the file walk are parameters.
 */
module Archive {
  import opened Wrappers
  import opened Json
  import Text
  import Seqs

  type Bytes = seq<bv8>

  /** `json.dumps(...).encode()`, `json.loads(....decode())`, `gzip` compression and decompression. */
  datatype Codec = Codec(
    dumps: seq<Value> -> Bytes,
    loads: Bytes -> Option<Value>,
    gzip: Bytes -> Bytes,
    gunzip: Bytes -> Option<Bytes>)

  /** A stored archive: its bytes, and for a bucket the content type and metadata it was put with. */
  datatype StoredObject = StoredObject(data: Bytes, contentType: Option<string>, metadata: map<string, string>)

  /**
   * Where archives go: the provider ("local" for the archive directory, else
   * an S3-compatible bucket), whether a bucket client could be built, and
   * the objects by key.
   */
  datatype Storage = Storage(provider: string, bucket: string, connected: bool, objects: map<string, StoredObject>)
  {
    predicate IsLocal() { provider == "local" }
    /** The `client` property: never for the local provider. */
    predicate HasClient() { !IsLocal() && connected }
  }

  const NoClient := "S3 client not available"
  const NothingReason := "No insights to archive"

  /** `"<tenant>/<date>/<job_id>.json"`, with ".gz" appended when compressed. */
  function ArchiveKey(tenant: string, datePrefix: string, jobId: string, compress: bool): (key: string)
    ensures Text.StartsWith(key, tenant + "/" + datePrefix + "/" + jobId)
    ensures Text.EndsWith(key, ".gz") <==> compress
    ensures !compress ==> Text.EndsWith(key, ".json")
  {
    var base := tenant + "/" + datePrefix + "/" + jobId + ".json";
    var key := if compress then base + ".gz" else base;
    assert key[..|tenant + "/" + datePrefix + "/" + jobId|] == tenant + "/" + datePrefix + "/" + jobId;
    assert |key| >= 5 && key[|key| - 5..] == ".json" ==> !Text.EndsWith(key, ".gz") by {
      if |key| >= 5 && key[|key| - 5..] == ".json" {
        assert key[|key| - 3..] == key[|key| - 5..][2..];
      }
    }
    assert compress ==> key[|key| - 3..] == ".gz";
    assert !compress ==> key[|key| - 5..] == ".json";
    key
  }

  /** The content type a bucket object is put with. */
  function ContentType(compressed: bool): (t: string)
    ensures t == "application/gzip" <==> compressed
  {
    if compressed then "application/gzip" else "application/json"
  }

  /** The bytes written: the JSON of the insights, gzip-compressed when asked. */
  function Payload(insights: seq<Value>, compress: bool, codec: Codec): Bytes
  {
    if compress then codec.gzip(codec.dumps(insights)) else codec.dumps(insights)
  }

  datatype Location = LocalFile(key: string) | InBucket(provider: string, bucket: string)

  datatype ArchiveOutcome =
    | NotArchived(reason: string)
    | Archived(key: string, sizeBytes: nat, compressed: bool, timestamp: string, location: Location)

  datatype ArchiveCall = ArchiveCall(outcome: Result<ArchiveOutcome, string>, storage: Storage)

  /**
   * `archive_insights`: nothing for no insights; the error `_archive_s3`
   * raises when a bucket has no client; else the payload stored under the
   * key and its metadata.
   */
  function ArchiveInsights(storage: Storage, insights: seq<Value>, jobId: string, tenant: string, compress: bool,
                           datePrefix: string, timestamp: string, codec: Codec): (r: ArchiveCall)
    ensures insights == [] ==> r == ArchiveCall(Ok(NotArchived(NothingReason)), storage)
    ensures insights != [] && !storage.IsLocal() && !storage.HasClient() ==> r == ArchiveCall(Err(NoClient), storage)
    ensures r.outcome.Ok? && r.outcome.value.Archived? ==> (
      var key := ArchiveKey(tenant, datePrefix, jobId, compress);
      insights != [] && r.outcome.value.key == key &&
      r.outcome.value.sizeBytes == |Payload(insights, compress, codec)| &&
      r.outcome.value.compressed == compress &&
      key in r.storage.objects && r.storage.objects[key].data == Payload(insights, compress, codec) &&
      (forall k :: k in storage.objects && k != key ==> k in r.storage.objects && r.storage.objects[k] == storage.objects[k]) &&
      r.storage.objects.Keys == storage.objects.Keys + {key})
    ensures insights != [] && (storage.IsLocal() || storage.HasClient()) ==> r.outcome.Ok? && r.outcome.value.Archived?
    ensures r.storage.provider == storage.provider && r.storage.bucket == storage.bucket &&
      r.storage.connected == storage.connected
  {
    if insights == [] then ArchiveCall(Ok(NotArchived(NothingReason)), storage)
    else
      var key := ArchiveKey(tenant, datePrefix, jobId, compress);
      var data := Payload(insights, compress, codec);
      if storage.IsLocal() then
        ArchiveCall(Ok(Archived(key, |data|, compress, timestamp, LocalFile(key))),
                    storage.(objects := storage.objects[key := StoredObject(data, None, map[])]))
      else if !storage.HasClient() then ArchiveCall(Err(NoClient), storage)
      else
        var meta := map["archived-at" := timestamp, "compressed" := if compress then "True" else "False"];
        ArchiveCall(Ok(Archived(key, |data|, compress, timestamp, InBucket(storage.provider, storage.bucket))),
                    storage.(objects := storage.objects[key := StoredObject(data, Some(ContentType(compress)), meta)]))
  }

  /** A bucket object of a compressed archive is put as gzip, an uncompressed one as JSON. */
  lemma BucketContentType(storage: Storage, insights: seq<Value>, jobId: string, tenant: string, compress: bool,
                          datePrefix: string, timestamp: string, codec: Codec)
    requires insights != [] && storage.HasClient()
    ensures var r := ArchiveInsights(storage, insights, jobId, tenant, compress, datePrefix, timestamp, codec);
      var key := ArchiveKey(tenant, datePrefix, jobId, compress);
      r.storage.objects[key].contentType == Some(ContentType(compress)) &&
      (r.storage.objects[key].contentType == Some("application/gzip") <==> compress)
  {
  }

  /** Whether retrieval decompresses: only when asked and the key ends with ".gz". */
  predicate Decompresses(key: string, decompress: bool)
  {
    decompress && Text.EndsWith(key, ".gz")
  }

  /**
   * `retrieve_archive`: the error a missing client, a missing object or
   * undecodable bytes raise, else the decoded archive.
   */
  function RetrieveArchive(storage: Storage, key: string, decompress: bool, codec: Codec): (r: Result<Value, string>)
    ensures r.Ok? ==> (storage.IsLocal() || storage.HasClient()) && key in storage.objects
    ensures r.Ok? && !Decompresses(key, decompress) ==> Some(r.value) == codec.loads(storage.objects[key].data)
    ensures r.Ok? && Decompresses(key, decompress) ==>
      codec.gunzip(storage.objects[key].data).Some? &&
      Some(r.value) == codec.loads(codec.gunzip(storage.objects[key].data).value)
  {
    if !storage.IsLocal() && !storage.HasClient() then Err(NoClient)
    else if key !in storage.objects then Err("No such archive: " + key)
    else
      var raw := storage.objects[key].data;
      var data := if Decompresses(key, decompress) then codec.gunzip(raw) else Some(raw);
      if data.None? then Err("Not a gzipped file")
      else
        var v := codec.loads(data.value);
        if v.None? then Err("Invalid JSON") else Ok(v.value)
  }

  /**
   * Archiving and then retrieving with the default `decompress` gives the
   * insights back, compressed or not, whenever gzip and JSON round-trip.
   */
  lemma ArchiveRetrieveRoundTrip(storage: Storage, insights: seq<Value>, jobId: string, tenant: string, compress: bool,
                                 datePrefix: string, timestamp: string, codec: Codec)
    requires insights != [] && (storage.IsLocal() || storage.HasClient())
    requires codec.loads(codec.dumps(insights)) == Some(List(insights))
    requires codec.gunzip(codec.gzip(codec.dumps(insights))) == Some(codec.dumps(insights))
    ensures var r := ArchiveInsights(storage, insights, jobId, tenant, compress, datePrefix, timestamp, codec);
      RetrieveArchive(r.storage, r.outcome.value.key, true, codec) == Ok(List(insights))
  {
    var r := ArchiveInsights(storage, insights, jobId, tenant, compress, datePrefix, timestamp, codec);
    var key := ArchiveKey(tenant, datePrefix, jobId, compress);
    assert Decompresses(key, true) <==> compress;
  }

  /** An entry of a listing. */
  datatype ArchiveEntry = ArchiveEntry(key: string, sizeBytes: nat, lastModified: string)

  /** `"<tenant>/<prefix>"`. */
  function ListPrefix(tenant: string, prefix: string): (p: string)
    ensures Text.StartsWith(p, tenant + "/")
  {
    var p := tenant + "/" + prefix;
    assert p[..|tenant + "/"|] == tenant + "/";
    p
  }

  /** Python's `s[:n]`: a negative `n` drops that many entries from the end. */
  function Head<T>(s: seq<T>, n: int): (r: seq<T>)
    ensures n >= 0 ==> |r| <= n
    ensures |r| <= |s| && r == s[..|r|]
  {
    if n >= |s| then s else if n >= 0 then s[..n] else if |s| + n >= 0 then s[..|s| + n] else []
  }

  function Concat<T>(ss: seq<seq<T>>): seq<T>
  {
    if ss == [] then [] else Concat(ss[..|ss| - 1]) + ss[|ss| - 1]
  }

  /** Every entry of a concatenation comes from one of the pieces. */
  lemma {:induction false} ConcatFrom<T>(ss: seq<seq<T>>, x: T)
    requires x in Concat(ss)
    ensures exists i :: 0 <= i < |ss| && x in ss[i]
    decreases |ss|
  {
    var init := ss[..|ss| - 1];
    if x in Concat(init) {
      ConcatFrom(init, x);
      var i :| 0 <= i < |init| && x in init[i];
      assert ss[i] == init[i];
    } else {
      assert x in ss[|ss| - 1];
    }
  }

  /** `files[:max_results]` for each walked directory, in walk order. */
  function CappedDirs<T>(dirs: seq<seq<T>>, n: int): (r: seq<seq<T>>)
    ensures |r| == |dirs| && forall d :: 0 <= d < |dirs| ==> r[d] == Head(dirs[d], n)
  {
    seq(|dirs|, d requires 0 <= d < |dirs| => Head(dirs[d], n))
  }

  /** No piece is longer than the concatenation. */
  lemma {:induction false} ConcatPieceLen<T>(ss: seq<seq<T>>, d: nat)
    requires d < |ss|
    ensures |ss[d]| <= |Concat(ss)|
    decreases |ss|
  {
    if d < |ss| - 1 {
      ConcatPieceLen(ss[..|ss| - 1], d);
      assert ss[..|ss| - 1][d] == ss[d];
    }
  }

  /**
   * `list_archives`. `walk` is `os.walk` of the archive directory under the
   * prefix, one file list per directory, None when it does not exist;
   * `query` is `list_objects_v2`, already capped by the bucket at `MaxKeys`.
   */
  function ListArchives(storage: Storage, tenant: string, prefix: string, maxResults: int,
                        walk: string -> Option<seq<seq<ArchiveEntry>>>,
                        query: (string, int) -> seq<ArchiveEntry>): (r: seq<ArchiveEntry>)
    ensures storage.IsLocal() && maxResults >= 0 ==> |r| <= maxResults
    ensures storage.IsLocal() && walk(ListPrefix(tenant, prefix)).None? ==> r == []
    ensures storage.IsLocal() ==> forall e :: e in r ==>
      exists d :: 0 <= d < |walk(ListPrefix(tenant, prefix)).value| && e in walk(ListPrefix(tenant, prefix)).value[d]
    ensures !storage.IsLocal() && !storage.HasClient() ==> r == []
    ensures storage.HasClient() ==> r == query(ListPrefix(tenant, prefix), maxResults)
    ensures storage.IsLocal() && walk(ListPrefix(tenant, prefix)).Some? ==>
      r == Head(Concat(CappedDirs(walk(ListPrefix(tenant, prefix)).value, maxResults)), maxResults)
  {
    var full := ListPrefix(tenant, prefix);
    if storage.IsLocal() then
      match walk(full)
      case None => []
      case Some(dirs) =>
        var capped := CappedDirs(dirs, maxResults);
        var r := Head(Concat(capped), maxResults);
        assert forall e :: e in r ==> exists d :: 0 <= d < |dirs| && e in dirs[d] by {
          forall e | e in r ensures exists d :: 0 <= d < |dirs| && e in dirs[d] {
            ConcatFrom(capped, e);
            var d :| 0 <= d < |capped| && e in capped[d];
            assert e in dirs[d];
          }
        }
        r
    else if !storage.HasClient() then []
    else query(full, maxResults)
  }

  /**
   * When the walk finds at most `max_results` files in all, the local listing
   * holds every one of them, in walk order.
   */
  lemma ListArchivesComplete(storage: Storage, tenant: string, prefix: string, maxResults: int,
                             walk: string -> Option<seq<seq<ArchiveEntry>>>,
                             query: (string, int) -> seq<ArchiveEntry>)
    requires storage.IsLocal() && walk(ListPrefix(tenant, prefix)).Some?
    requires |Concat(walk(ListPrefix(tenant, prefix)).value)| <= maxResults
    ensures ListArchives(storage, tenant, prefix, maxResults, walk, query) == Concat(walk(ListPrefix(tenant, prefix)).value)
  {
    var dirs := walk(ListPrefix(tenant, prefix)).value;
    forall d | 0 <= d < |dirs| ensures Head(dirs[d], maxResults) == dirs[d] {
      ConcatPieceLen(dirs, d);
    }
    assert CappedDirs(dirs, maxResults) == dirs;
  }

  /**
   * `delete_archive`: False where the deletion raises (a local file that is
   * not there, or `failed` bucket call), else True; with a bucket provider
   * and no client it reports True and deletes nothing.
   */
  function DeleteArchive(storage: Storage, key: string, failed: bool): (r: (bool, Storage))
    ensures !r.0 ==> r.1 == storage
    ensures r.0 && (storage.IsLocal() || storage.HasClient()) ==> r.1 == storage.(objects := storage.objects - {key})
    ensures storage.IsLocal() ==> (r.0 <==> key in storage.objects)
    ensures !storage.IsLocal() && !storage.HasClient() ==> r == (true, storage)
    ensures storage.HasClient() ==> (r.0 <==> !failed)
  {
    if storage.IsLocal() then
      if key in storage.objects then (true, storage.(objects := storage.objects - {key})) else (false, storage)
    else if !storage.HasClient() then (true, storage)
    else if failed then (false, storage)
    else (true, storage.(objects := storage.objects - {key}))
  }

  /* ---------------- retention ---------------- */

  const SecondsPerDay: int := 86400
  const HotRetentionDays: int := 90
  const ColdRetentionDays: int := 730

  /** `get_archive_cutoff` and `get_delete_cutoff`: the given number of days before now. */
  function Cutoff(now: int, days: int): (c: int)
    ensures days > 0 ==> c < now
    ensures now - c == days * SecondsPerDay
  {
    now - days * SecondsPerDay
  }

  lemma DefaultCutoffs(now: int)
    ensures Cutoff(now, ColdRetentionDays) < Cutoff(now, HotRetentionDays) < now
  {
  }

  /** One insight row of a batch: its job, its dict form and its archive stamp. */
  datatype InsightRow = InsightRow(jobId: string, record: map<string, Value>, archivedAt: Option<int>)

  function JobIds(rows: seq<InsightRow>): (ids: seq<string>)
    ensures |ids| == |rows| && forall i :: 0 <= i < |rows| ==> ids[i] == rows[i].jobId
  {
    seq(|rows|, i requires 0 <= i < |rows| => rows[i].jobId)
  }

  /** The groups in order of first appearance of their job. */
  function GroupOrder(rows: seq<InsightRow>): (order: seq<string>)
    ensures Seqs.Distinct(order)
    ensures forall j :: j in order <==> exists i :: 0 <= i < |rows| && rows[i].jobId == j
  {
    var ids := JobIds(rows);
    assert forall j :: j in ids <==> exists i :: 0 <= i < |rows| && rows[i].jobId == j by {
      forall j | j in ids ensures exists i :: 0 <= i < |rows| && rows[i].jobId == j {
        var i :| 0 <= i < |ids| && ids[i] == j;
      }
    }
    Seqs.Dedup(ids)
  }

  /** The records of the job's insights, in batch order. */
  function RecordsOf(rows: seq<InsightRow>, j: string): (g: seq<map<string, Value>>)
    ensures |g| <= |rows|
  {
    if rows == [] then []
    else RecordsOf(rows[..|rows| - 1], j) + (if rows[|rows| - 1].jobId == j then [rows[|rows| - 1].record] else [])
  }

  /** The records of a group are those of the rows with its job, in order. */
  lemma {:induction false} RecordsOfAt(rows: seq<InsightRow>, j: string, i: nat)
    requires i < |rows| && rows[i].jobId == j
    ensures rows[i].record in RecordsOf(rows, j)
    decreases |rows|
  {
    if i < |rows| - 1 {
      RecordsOfAt(rows[..|rows| - 1], j, i);
    }
  }

  /** `job_insights[0].get('tenant', 'default')`. */
  function TenantOf(group: seq<map<string, Value>>): Value
  {
    if group == [] then Str("default") else Get(group[0], "tenant", Str("default"))
  }

  /** Whether archiving the job's group succeeds, as `succeeds` says of the group, job id and tenant. */
  predicate GroupOk(rows: seq<InsightRow>, j: string, succeeds: (seq<map<string, Value>>, string, Value) -> bool)
  {
    succeeds(RecordsOf(rows, j), j, TenantOf(RecordsOf(rows, j)))
  }

  /** The insights archived over the groups `js`: the sizes of those whose call succeeded. */
  function ArchivedOver(rows: seq<InsightRow>, js: seq<string>,
                        succeeds: (seq<map<string, Value>>, string, Value) -> bool): nat
  {
    if js == [] then 0
    else (ArchivedOver(rows, js[..|js| - 1], succeeds) +
      (if GroupOk(rows, js[|js| - 1], succeeds) then |RecordsOf(rows, js[|js| - 1])| else 0))
  }

  /** The number of the groups `js` whose call failed. */
  function FailedOver(rows: seq<InsightRow>, js: seq<string>,
                      succeeds: (seq<map<string, Value>>, string, Value) -> bool): (n: nat)
    ensures n <= |js|
  {
    if js == [] then 0
    else FailedOver(rows, js[..|js| - 1], succeeds) + (if GroupOk(rows, js[|js| - 1], succeeds) then 0 else 1)
  }

  /** The summed sizes of the groups `js`. */
  function GroupSizes(rows: seq<InsightRow>, js: seq<string>): nat
  {
    if js == [] then 0 else GroupSizes(rows, js[..|js| - 1]) + |RecordsOf(rows, js[|js| - 1])|
  }

  /** A job with no row has an empty group. */
  lemma {:induction false} RecordsOfAbsent(rows: seq<InsightRow>, j: string)
    requires forall i :: 0 <= i < |rows| ==> rows[i].jobId != j
    ensures RecordsOf(rows, j) == []
    decreases |rows|
  {
    if rows != [] {
      RecordsOfAbsent(rows[..|rows| - 1], j);
    }
  }

  /** One more row adds one to exactly the group of its job, if that group is among `js`. */
  lemma {:induction false} GroupSizesSnoc(rows: seq<InsightRow>, r: InsightRow, js: seq<string>)
    requires Seqs.Distinct(js)
    ensures GroupSizes(rows + [r], js) == GroupSizes(rows, js) + (if r.jobId in js then 1 else 0)
    decreases |js|
  {
    var rows' := rows + [r];
    assert rows'[..|rows|] == rows;
    if js != [] {
      var init := js[..|js| - 1];
      assert Seqs.Distinct(init) by {
        forall a, b | 0 <= a < b < |init| ensures init[a] != init[b] { assert init[a] == js[a] && init[b] == js[b]; }
      }
      GroupSizesSnoc(rows, r, init);
      assert js == init + [js[|js| - 1]];
      assert js[|js| - 1] !in init;
    }
  }

  /** The groups partition the batch: their sizes add up to the number of rows. */
  lemma {:induction false} GroupsPartition(rows: seq<InsightRow>)
    ensures GroupSizes(rows, GroupOrder(rows)) == |rows|
    decreases |rows|
  {
    if rows != [] {
      var init := rows[..|rows| - 1];
      var r := rows[|rows| - 1];
      assert rows == init + [r];
      GroupsPartition(init);
      var d := GroupOrder(init);
      assert JobIds(rows)[..|init|] == JobIds(init);
      assert Seqs.Dedup(JobIds(rows)) == if r.jobId in d then d else d + [r.jobId];
      GroupSizesSnoc(init, r, d);
      if r.jobId !in d {
        RecordsOfAbsent(init, r.jobId);
        assert (d + [r.jobId])[..|d|] == d;
      }
    }
  }

  /** When every group is archived, so is every insight of the batch. */
  lemma {:induction false} ArchivedAll(rows: seq<InsightRow>, js: seq<string>,
                                      succeeds: (seq<map<string, Value>>, string, Value) -> bool)
    requires forall k :: 0 <= k < |js| ==> GroupOk(rows, js[k], succeeds)
    ensures ArchivedOver(rows, js, succeeds) == GroupSizes(rows, js)
    ensures FailedOver(rows, js, succeeds) == 0
    decreases |js|
  {
    if js != [] {
      ArchivedAll(rows, js[..|js| - 1], succeeds);
    }
  }

  /** A batch whose every group is archived counts all its rows and no error. */
  lemma AllGroupsArchived(rows: seq<InsightRow>, succeeds: (seq<map<string, Value>>, string, Value) -> bool)
    requires forall i :: 0 <= i < |rows| ==> GroupOk(rows, rows[i].jobId, succeeds)
    ensures ArchivedOver(rows, GroupOrder(rows), succeeds) == |rows|
    ensures FailedOver(rows, GroupOrder(rows), succeeds) == 0
  {
    var order := GroupOrder(rows);
    forall k | 0 <= k < |order| ensures GroupOk(rows, order[k], succeeds) {
      assert order[k] in order;
    }
    ArchivedAll(rows, order, succeeds);
    GroupsPartition(rows);
  }

  /** The stats dict of the retention job. */
  datatype Stats = Stats(archived: nat, batches: nat, errors: nat)

  /** The stamp a row carries once the groups `js` are through. */
  function StampAfter(row: InsightRow, rows: seq<InsightRow>, js: seq<string>,
                      succeeds: (seq<map<string, Value>>, string, Value) -> bool, now: int): Option<int>
  {
    if row.jobId in js && GroupOk(rows, row.jobId, succeeds) then Some(now) else row.archivedAt
  }

  /** `order` and `byJob` are the grouping of `rows`. */
  ghost predicate Grouped(rows: seq<InsightRow>, order: seq<string>, byJob: map<string, seq<map<string, Value>>>)
  {
    order == Seqs.Dedup(JobIds(rows)) &&
    byJob.Keys == (set j | j in order) &&
    (forall j :: j in byJob ==> byJob[j] == RecordsOf(rows, j)) &&
    (forall j :: j !in byJob ==> RecordsOf(rows, j) == [])
  }

  /** Grouping one more row: a new job opens a group at the end, and the row joins its job's group. */
  lemma GroupStep(rows: seq<InsightRow>, order: seq<string>, byJob: map<string, seq<map<string, Value>>>, r: InsightRow)
    requires Grouped(rows, order, byJob)
    ensures Grouped(rows + [r],
                    if r.jobId in byJob then order else order + [r.jobId],
                    byJob[r.jobId := (if r.jobId in byJob then byJob[r.jobId] else []) + [r.record]])
  {
    var rows' := rows + [r];
    var j := r.jobId;
    var order' := if j in byJob then order else order + [j];
    var byJob' := byJob[j := (if j in byJob then byJob[j] else []) + [r.record]];
    GroupOrderSnoc(rows, r);
    KeysSnoc(order, order', byJob, j, r.record);
    GroupsSnoc(rows, byJob, r);
  }

  /** The groups' keys stay the jobs of the order when a job's group grows or opens. */
  lemma KeysSnoc(order: seq<string>, order': seq<string>, byJob: map<string, seq<map<string, Value>>>, j: string, x: map<string, Value>)
    requires byJob.Keys == (set k | k in order)
    requires order' == if j in byJob then order else order + [j]
    ensures byJob[j := (if j in byJob then byJob[j] else []) + [x]].Keys == (set k | k in order')
  {
    var m := byJob[j := (if j in byJob then byJob[j] else []) + [x]];
    assert m.Keys == byJob.Keys + {j};
    assert (set k | k in order') == (set k | k in order) + {j};
  }

  /** Each group after one more row holds its job's records. */
  lemma GroupsSnoc(rows: seq<InsightRow>, byJob: map<string, seq<map<string, Value>>>, r: InsightRow)
    requires forall j :: j in byJob ==> byJob[j] == RecordsOf(rows, j)
    requires forall j :: j !in byJob ==> RecordsOf(rows, j) == []
    ensures var m := byJob[r.jobId := (if r.jobId in byJob then byJob[r.jobId] else []) + [r.record]];
      (forall j :: j in m ==> m[j] == RecordsOf(rows + [r], j)) &&
      (forall j :: j !in m ==> RecordsOf(rows + [r], j) == [])
  {
    var m := byJob[r.jobId := (if r.jobId in byJob then byJob[r.jobId] else []) + [r.record]];
    forall x | x in m ensures m[x] == RecordsOf(rows + [r], x) {
      RecordsOfSnoc(rows, r, x);
    }
    forall x | x !in m ensures RecordsOf(rows + [r], x) == [] {
      RecordsOfSnoc(rows, r, x);
    }
  }

  /** The job order after one more row: its job is appended when it is new. */
  lemma GroupOrderSnoc(rows: seq<InsightRow>, r: InsightRow)
    ensures Seqs.Dedup(JobIds(rows + [r])) ==
      var d := Seqs.Dedup(JobIds(rows)); if r.jobId in d then d else d + [r.jobId]
  {
    var ids := JobIds(rows + [r]);
    assert ids == JobIds(rows) + [r.jobId];
    assert ids[..|rows|] == JobIds(rows);
  }

  /** One more row adds its record to its own job's group only. */
  lemma RecordsOfSnoc(rows: seq<InsightRow>, r: InsightRow, j: string)
    ensures RecordsOf(rows + [r], j) == RecordsOf(rows, j) + (if r.jobId == j then [r.record] else [])
  {
    assert (rows + [r])[..|rows|] == rows;
  }

  /**
   * Groups the batch by job: the jobs in order of first appearance and each
   * job's records in batch order.
   */
  method GroupByJob(batch: array<InsightRow>) returns (order: seq<string>, byJob: map<string, seq<map<string, Value>>>)
    ensures order == GroupOrder(batch[..])
    ensures byJob.Keys == set j | j in order
    ensures forall j :: j in byJob ==> byJob[j] == RecordsOf(batch[..], j)
  {
    order, byJob := [], map[];
    var i := 0;
    while i < batch.Length
      invariant 0 <= i <= batch.Length
      invariant Grouped(batch[..i], order, byJob)
    {
      assert batch[..i + 1] == batch[..i] + [batch[i]];
      GroupStep(batch[..i], order, byJob, batch[i]);
      var jobId := batch[i].jobId;
      if jobId !in byJob {
        byJob := byJob[jobId := []];
        order := order + [jobId];
      }
      byJob := byJob[jobId := byJob[jobId] + [batch[i].record]];
      i := i + 1;
    }
    assert batch[..i] == batch[..];
  }

  /** Stamps every row of the job with `now`, leaving every other row as it was. */
  method MarkArchived(batch: array<InsightRow>, jobId: string, now: int)
    modifies batch
    ensures forall i :: 0 <= i < batch.Length ==>
      batch[i] == if old(batch[i]).jobId == jobId then old(batch[i]).(archivedAt := Some(now)) else old(batch[i])
  {
    var i := 0;
    while i < batch.Length
      invariant 0 <= i <= batch.Length
      invariant forall k :: 0 <= k < i ==>
        batch[k] == if old(batch[k]).jobId == jobId then old(batch[k]).(archivedAt := Some(now)) else old(batch[k])
      invariant forall k :: i <= k < batch.Length ==> batch[k] == old(batch[k])
    {
      if batch[i].jobId == jobId {
        batch[i] := batch[i].(archivedAt := Some(now));
      }
      i := i + 1;
    }
  }

  /** Taking one more group into account adds its size or one failure. */
  lemma OverNext(rows: seq<InsightRow>, order: seq<string>, k: nat, succeeds: (seq<map<string, Value>>, string, Value) -> bool)
    requires k < |order|
    ensures order[..k + 1] == order[..k] + [order[k]]
    ensures ArchivedOver(rows, order[..k + 1], succeeds) ==
      ArchivedOver(rows, order[..k], succeeds) + (if GroupOk(rows, order[k], succeeds) then |RecordsOf(rows, order[k])| else 0)
    ensures FailedOver(rows, order[..k + 1], succeeds) ==
      FailedOver(rows, order[..k], succeeds) + (if GroupOk(rows, order[k], succeeds) then 0 else 1)
  {
    assert order[..k + 1][..k] == order[..k];
  }

  /** The batch as it stands once the groups `js` are through. */
  ghost predicate Stamped(batch: array<InsightRow>, rows: seq<InsightRow>, js: seq<string>,
                          succeeds: (seq<map<string, Value>>, string, Value) -> bool, now: int)
    reads batch
  {
    batch.Length == |rows| &&
    forall i :: 0 <= i < batch.Length ==> batch[i] == rows[i].(archivedAt := StampAfter(rows[i], rows, js, succeeds, now))
  }

  /** Archives one job's group, stamping its insights when that succeeds. */
  method ArchiveGroup(batch: array<InsightRow>, ghost rows: seq<InsightRow>, ghost js: seq<string>, jobId: string,
                      group: seq<map<string, Value>>, succeeds: (seq<map<string, Value>>, string, Value) -> bool, now: int)
    returns (ok: bool)
    requires Stamped(batch, rows, js, succeeds, now) && group == RecordsOf(rows, jobId)
    modifies batch
    ensures ok == GroupOk(rows, jobId, succeeds)
    ensures Stamped(batch, rows, js + [jobId], succeeds, now)
  {
    ok := succeeds(group, jobId, TenantOf(group));
    if ok {
      MarkArchived(batch, jobId, now);
    }
    assert forall i :: 0 <= i < |rows| ==> batch[i].jobId == rows[i].jobId;
  }

  /**
   * One pass of `archive_old_insights` over the batch the query returned:
   * `done` when it is empty; else each job's group is archived in turn, the
   * insights of a group that made it are stamped `now`, `archived` sums the
   * sizes of those groups, `errors` counts the others, and the pass counts
   * one batch. Rows keep their job and record.
   */
  method ArchiveBatch(batch: array<InsightRow>, succeeds: (seq<map<string, Value>>, string, Value) -> bool, now: int)
    returns (stats: Stats, done: bool)
    modifies batch
    ensures done <==> batch.Length == 0
    ensures done ==> stats == Stats(0, 0, 0)
    ensures !done ==> stats == Stats(ArchivedOver(old(batch[..]), GroupOrder(old(batch[..])), succeeds), 1,
                                    FailedOver(old(batch[..]), GroupOrder(old(batch[..])), succeeds))
    ensures forall i :: 0 <= i < batch.Length ==>
      batch[i] == old(batch[i]).(archivedAt := StampAfter(old(batch[i]), old(batch[..]), GroupOrder(old(batch[..])), succeeds, now))
  {
    if batch.Length == 0 {
      return Stats(0, 0, 0), true;
    }
    ghost var rows := batch[..];
    var order, byJob := GroupByJob(batch);
    var archived, errors := 0, 0;
    var k := 0;
    assert Stamped(batch, rows, order[..0], succeeds, now);
    while k < |order|
      invariant 0 <= k <= |order|
      invariant archived == ArchivedOver(rows, order[..k], succeeds)
      invariant errors == FailedOver(rows, order[..k], succeeds)
      invariant Stamped(batch, rows, order[..k], succeeds, now)
    {
      var jobId := order[k];
      var group := byJob[jobId];
      OverNext(rows, order, k, succeeds);
      var ok := ArchiveGroup(batch, rows, order[..k], jobId, group, succeeds, now);
      if ok {
        archived := archived + |group|;
      } else {
        errors := errors + 1;
      }
      k := k + 1;
    }
    assert order[..k] == order;
    stats, done := Stats(archived, 1, errors), false;
  }
}
