/**
 * Event fan-out for the server-sent event stream: a registry of
 * per-job and global subscriber queues, publication to every queue
 * subscribed to an event's job and to every global queue, the
 * subscription bookkeeping, and the SSE frame format. Queue objects are
 * identified by a number; JSON serialisation is a parameter.
 */
module Events {
  import opened Wrappers
  import Text
  import Seqs
  import Deps

  datatype EventType =
    | JobAccepted | PartialResult | Complete | Error
    | ProcessingStarted | NlpStarted | NlpCompleted | OcrStarted | OcrCompleted | ItemProcessed

  function EventTypeValue(t: EventType): string
  {
    match t
    case JobAccepted => "job.accepted"
    case PartialResult => "partial_result"
    case Complete => "complete"
    case Error => "error"
    case ProcessingStarted => "processing.started"
    case NlpStarted => "nlp.started"
    case NlpCompleted => "nlp.completed"
    case OcrStarted => "ocr.started"
    case OcrCompleted => "ocr.completed"
    case ItemProcessed => "item.processed"
  }

  /** `EventType(v)` for a listed value, None otherwise. */
  function ParseEventType(v: string): (r: Option<EventType>)
    ensures r.Some? ==> EventTypeValue(r.value) == v
  {
    if v == "job.accepted" then Some(JobAccepted)
    else if v == "partial_result" then Some(PartialResult)
    else if v == "complete" then Some(Complete)
    else if v == "error" then Some(Error)
    else if v == "processing.started" then Some(ProcessingStarted)
    else if v == "nlp.started" then Some(NlpStarted)
    else if v == "nlp.completed" then Some(NlpCompleted)
    else if v == "ocr.started" then Some(OcrStarted)
    else if v == "ocr.completed" then Some(OcrCompleted)
    else if v == "item.processed" then Some(ItemProcessed)
    else None
  }

  lemma ParseEventTypeComplete(t: EventType)
    ensures ParseEventType(EventTypeValue(t)) == Some(t)
  {
  }

  datatype JobEvent = JobEvent(
    eventType: EventType,
    jobId: string,
    tenant: string,
    timestamp: int,
    data: Option<map<string, string>>,
    message: Option<string>)

  /** What a queue holds: a published event, or the greeting the stream endpoint puts first. */
  datatype QueueItem =
    | Published(event: JobEvent)
    | Connected(jobId: string, tenant: string, timestamp: int)

  type QueueId = nat

  /** Every queue of `targets` gains `item` at its tail; no other queue changes. */
  function Delivered(queues: map<QueueId, seq<QueueItem>>, targets: seq<QueueId>, item: QueueItem): (r: map<QueueId, seq<QueueItem>>)
    ensures r.Keys == queues.Keys
    ensures forall q :: q in r && q in targets ==> r[q] == queues[q] + [item]
    ensures forall q :: q in r && q !in targets ==> r[q] == queues[q]
  {
    map q | q in queues :: if q in targets then queues[q] + [item] else queues[q]
  }

  /** Delivering to one more queue appends to that queue alone. */
  lemma DeliveredSnoc(queues: map<QueueId, seq<QueueItem>>, targets: seq<QueueId>, t: QueueId, item: QueueItem)
    requires t in queues && t !in targets
    ensures Delivered(queues, targets + [t], item) == Delivered(queues, targets, item)[t := queues[t] + [item]]
  {
    var lhs := Delivered(queues, targets + [t], item);
    var rhs := Delivered(queues, targets, item)[t := queues[t] + [item]];
    forall q | q in lhs ensures lhs[q] == rhs[q] {
      assert q in targets + [t] <==> q in targets || q == t;
    }
  }

  /** Delivering to two disjoint lists in turn is delivering to their concatenation. */
  lemma DeliveredTwice(queues: map<QueueId, seq<QueueItem>>, a: seq<QueueId>, b: seq<QueueId>, item: QueueItem)
    requires forall q :: q in a ==> q !in b
    ensures Delivered(Delivered(queues, a, item), b, item) == Delivered(queues, a + b, item)
  {
    var lhs := Delivered(Delivered(queues, a, item), b, item);
    var rhs := Delivered(queues, a + b, item);
    forall q | q in lhs ensures lhs[q] == rhs[q] {
      assert q in a + b <==> q in a || q in b;
    }
  }

  /** Two publications reach a subscribed queue in publication order. */
  lemma {:induction false} DeliveredFifo(queues: map<QueueId, seq<QueueItem>>, targets: seq<QueueId>, x: QueueItem, y: QueueItem, q: QueueId)
    requires q in queues && q in targets
    ensures Delivered(Delivered(queues, targets, x), targets, y)[q] == queues[q] + [x, y]
  {
    var once := Delivered(queues, targets, x);
    assert once[q] == queues[q] + [x];
    assert Delivered(once, targets, y)[q] == once[q] + [y];
  }

  /** `s.remove(x)`: drops the first occurrence of `x`; callers check membership first. */
  function RemoveFirst(s: seq<QueueId>, x: QueueId): (r: seq<QueueId>)
    ensures x !in s ==> r == s
    ensures |r| == if x in s then |s| - 1 else |s|
    ensures forall y :: y in r ==> y in s
    ensures forall y :: y in s && y != x ==> y in r
    ensures Seqs.Distinct(s) ==> Seqs.Distinct(r) && x !in r
  {
    if s == [] then []
    else if s[0] == x then s[1..]
    else
      var rest := RemoveFirst(s[1..], x);
      assert Seqs.Distinct(s) ==> s[0] !in s[1..];
      [s[0]] + rest
  }

  /** One SSE frame: the event line, the data line and a blank line; the type defaults to "message". */
  function SseFrame(eventType: Option<string>, data: string): (r: string)
    ensures Text.StartsWith(r, "event: ")
    ensures Text.EndsWith(r, "\n\n")
    ensures r == "event: " + GetOr(eventType, "message") + "\ndata: " + data + "\n\n"
  {
    var r := "event: " + GetOr(eventType, "message") + "\ndata: " + data + "\n\n";
    assert r[..7] == "event: ";
    assert r[|r| - 2..] == "\n\n";
    r
  }

  /** The comment frame sent when no event arrives within the heartbeat interval. */
  function HeartbeatFrame(timestamp: string): (r: string)
    ensures Text.StartsWith(r, ": heartbeat ") && Text.EndsWith(r, "\n\n")
  {
    var r := ": heartbeat " + timestamp + "\n\n";
    assert r[..12] == ": heartbeat ";
    assert r[|r| - 2..] == "\n\n";
    r
  }

  /** The type field the stream reads back from a queued item's JSON. */
  function ItemType(item: QueueItem): string
  {
    match item
    case Published(e) => EventTypeValue(e.eventType)
    case Connected(_, _, _) => "connected"
  }

  /** The frame the stream sends for a dequeued item, whose JSON encoding is `json`. */
  function ItemFrame(item: QueueItem, json: QueueItem -> string): (r: string)
    ensures r == SseFrame(Some(ItemType(item)), json(item))
  {
    SseFrame(Some(ItemType(item)), json(item))
  }

  /** `get_recent_events`: always empty, once the limit is within 1..100. */
  function RecentEvents(jobId: Option<string>, limit: int): (r: Result<seq<JobEvent>, int>)
    ensures r.Err? <==> !(1 <= limit <= 100)
    ensures r.Ok? ==> r.value == []
  {
    if 1 <= limit <= 100 then Ok([]) else Err(422)
  }

  function JobAcceptedEvent(jobId: string, tenant: string, data: Option<map<string, string>>, now: int): (e: JobEvent)
    ensures e.eventType == JobAccepted && e.jobId == jobId && e.tenant == tenant && e.data == data
    ensures e.message == Some("Ingestion job accepted and queued")
  {
    JobEvent(JobAccepted, jobId, tenant, now, data, Some("Ingestion job accepted and queued"))
  }

  function PartialResultEvent(jobId: string, tenant: string, data: map<string, string>, now: int): (e: JobEvent)
    ensures e.eventType == PartialResult && e.jobId == jobId && e.tenant == tenant && e.data == Some(data)
    ensures e.message == Some("Partial results available")
  {
    JobEvent(PartialResult, jobId, tenant, now, Some(data), Some("Partial results available"))
  }

  function CompleteEvent(jobId: string, tenant: string, data: Option<map<string, string>>, now: int): (e: JobEvent)
    ensures e.eventType == Complete && e.jobId == jobId && e.tenant == tenant && e.data == data
    ensures e.message == Some("Ingestion job completed successfully")
  {
    JobEvent(Complete, jobId, tenant, now, data, Some("Ingestion job completed successfully"))
  }

  function ErrorEvent(jobId: string, tenant: string, error: string, data: Option<map<string, string>>, now: int): (e: JobEvent)
    ensures e.eventType == Error && e.jobId == jobId && e.tenant == tenant && e.data == data
    ensures e.message == Some(error)
  {
    JobEvent(Error, jobId, tenant, now, data, Some(error))
  }

  class EventBus {
    /** job id -> the queues subscribed to it, in subscription order. */
    var jobSubs: map<string, seq<QueueId>>
    var globalSubs: seq<QueueId>
    /** The contents of every queue ever created. */
    var queues: map<QueueId, seq<QueueItem>>
    var nextId: QueueId

    /** Queues exist, are fresh when created, and each is subscribed in at most one place. */
    ghost predicate Valid()
      reads this
    {
      (forall q :: q in queues ==> q < nextId) &&
      (forall q :: q in globalSubs ==> q in queues) &&
      (forall j, q :: j in jobSubs && q in jobSubs[j] ==> q in queues && q !in globalSubs) &&
      Seqs.Distinct(globalSubs) &&
      (forall j :: j in jobSubs ==> Seqs.Distinct(jobSubs[j])) &&
      (forall j1, j2, q :: j1 in jobSubs && j2 in jobSubs && q in jobSubs[j1] && q in jobSubs[j2] ==> j1 == j2)
    }

    constructor ()
      ensures Valid() && jobSubs == map[] && globalSubs == [] && queues == map[]
    {
      jobSubs, globalSubs, queues, nextId := map[], [], map[], 0;
    }

    /** The queues an event for `jobId` reaches: that job's, then the global ones. */
    function Subscribers(jobId: string): seq<QueueId>
      reads this
    {
      (if jobId in jobSubs then jobSubs[jobId] else []) + globalSubs
    }

    /** Appends `item` to each queue of `targets`, one queue at a time. */
    method Deliver(targets: seq<QueueId>, item: QueueItem)
      requires forall q :: q in targets ==> q in queues
      requires Seqs.Distinct(targets)
      modifies this
      ensures queues == Delivered(old(queues), targets, item)
      ensures jobSubs == old(jobSubs) && globalSubs == old(globalSubs) && nextId == old(nextId)
    {
      var i := 0;
      while i < |targets|
        invariant 0 <= i <= |targets|
        invariant queues == Delivered(old(queues), targets[..i], item)
        invariant jobSubs == old(jobSubs) && globalSubs == old(globalSubs) && nextId == old(nextId)
      {
        var t := targets[i];
        assert t !in targets[..i];
        assert targets[..i + 1] == targets[..i] + [t];
        DeliveredSnoc(old(queues), targets[..i], t, item);
        queues := queues[t := queues[t] + [item]];
        i := i + 1;
      }
      assert targets[..i] == targets;
    }

    /** `publish_event`: the event reaches the tail of every subscribed queue exactly once. */
    method Publish(e: JobEvent)
      requires Valid()
      modifies this
      ensures Valid()
      ensures queues == Delivered(old(queues), old(Subscribers(e.jobId)), Published(e))
      ensures jobSubs == old(jobSubs) && globalSubs == old(globalSubs) && nextId == old(nextId)
    {
      var own := if e.jobId in jobSubs then jobSubs[e.jobId] else [];
      Deliver(own, Published(e));
      Deliver(globalSubs, Published(e));
      DeliveredTwice(old(queues), own, globalSubs, Published(e));
    }

    /** `subscribe_to_job`: a fresh empty queue appended to the job's list, which is created if absent. */
    method SubscribeToJob(jobId: string) returns (q: QueueId)
      requires Valid()
      modifies this
      ensures Valid()
      ensures q == old(nextId) && nextId == old(nextId) + 1
      ensures queues == old(queues)[q := []] && globalSubs == old(globalSubs)
      ensures jobSubs == old(jobSubs)[jobId := (if jobId in old(jobSubs) then old(jobSubs)[jobId] else []) + [q]]
    {
      q := nextId;
      assert q !in queues;
      var cur := if jobId in jobSubs then jobSubs[jobId] else [];
      var lst := cur + [q];
      assert forall y :: y in lst <==> y in cur || y == q;
      assert Seqs.Distinct(lst) by {
        forall a, b | 0 <= a < b < |lst| ensures lst[a] != lst[b] {
          if b == |cur| {
            assert lst[a] in cur;
          }
        }
      }
      nextId := nextId + 1;
      queues := queues[q := []];
      jobSubs := jobSubs[jobId := lst];
    }

    /** `subscribe_global`: a fresh empty queue appended to the global list. */
    method SubscribeGlobal() returns (q: QueueId)
      requires Valid()
      modifies this
      ensures Valid()
      ensures q == old(nextId) && nextId == old(nextId) + 1
      ensures queues == old(queues)[q := []] && jobSubs == old(jobSubs)
      ensures globalSubs == old(globalSubs) + [q]
    {
      q := nextId;
      assert q !in queues;
      var lst := globalSubs + [q];
      assert forall y :: y in lst <==> y in globalSubs || y == q;
      assert Seqs.Distinct(lst) by {
        forall a, b | 0 <= a < b < |lst| ensures lst[a] != lst[b] {
          if b == |globalSubs| {
            assert lst[a] in globalSubs;
          }
        }
      }
      nextId := nextId + 1;
      queues := queues[q := []];
      globalSubs := lst;
    }

    /** `unsubscribe_from_job`: removes the queue when subscribed; the (possibly empty) list stays. */
    method UnsubscribeFromJob(jobId: string, q: QueueId)
      requires Valid()
      modifies this
      ensures Valid() && queues == old(queues) && globalSubs == old(globalSubs) && nextId == old(nextId)
      ensures jobId in old(jobSubs) && q in old(jobSubs)[jobId] ==>
        jobSubs == old(jobSubs)[jobId := RemoveFirst(old(jobSubs)[jobId], q)]
      ensures !(jobId in old(jobSubs) && q in old(jobSubs)[jobId]) ==> jobSubs == old(jobSubs)
    {
      if jobId in jobSubs && q in jobSubs[jobId] {
        jobSubs := jobSubs[jobId := RemoveFirst(jobSubs[jobId], q)];
      }
    }

    /** `unsubscribe_global`: removes the queue when subscribed, else nothing changes. */
    method UnsubscribeGlobal(q: QueueId)
      requires Valid()
      modifies this
      ensures Valid() && queues == old(queues) && jobSubs == old(jobSubs) && nextId == old(nextId)
      ensures globalSubs == RemoveFirst(old(globalSubs), q)
    {
      if q in globalSubs {
        globalSubs := RemoveFirst(globalSubs, q);
      }
    }

    /** `cleanup_empty_subscriptions`: drops exactly the job ids whose lists are empty. */
    method CleanupEmptySubscriptions()
      requires Valid()
      modifies this
      ensures Valid() && queues == old(queues) && globalSubs == old(globalSubs) && nextId == old(nextId)
      ensures forall j :: j in jobSubs <==> j in old(jobSubs) && old(jobSubs)[j] != []
      ensures forall j :: j in jobSubs ==> jobSubs[j] == old(jobSubs)[j]
    {
      jobSubs := map j | j in jobSubs && jobSubs[j] != [] :: jobSubs[j];
    }

    /** `cleanup_all_subscribers`: both registries become empty. */
    method CleanupAllSubscribers()
      requires Valid()
      modifies this
      ensures Valid() && jobSubs == map[] && globalSubs == [] && queues == old(queues) && nextId == old(nextId)
    {
      jobSubs := map[];
      globalSubs := [];
    }

    /**
     * The subscription part of `stream_events`: a job queue when a job id
     * is given, else a global one, primed with the greeting item.
     */
    method OpenStream(jobId: Option<string>, tenant: Option<string>, now: int) returns (q: QueueId)
      requires Valid()
      modifies this
      ensures Valid() && q == old(nextId) && q !in old(queues)
      ensures queues == old(queues)[q := [Connected(if Deps.Given(jobId) then jobId.value else "*",
                                                    if Deps.Given(tenant) then tenant.value else "*", now)]]
      ensures Deps.Given(jobId) ==> (globalSubs == old(globalSubs) &&
        jobSubs == old(jobSubs)[jobId.value := (if jobId.value in old(jobSubs) then old(jobSubs)[jobId.value] else []) + [q]])
      ensures !Deps.Given(jobId) ==> jobSubs == old(jobSubs) && globalSubs == old(globalSubs) + [q]
    {
      if Deps.Given(jobId) {
        q := SubscribeToJob(jobId.value);
      } else {
        q := SubscribeGlobal();
      }
      var greeting := Connected(if Deps.Given(jobId) then jobId.value else "*",
                                if Deps.Given(tenant) then tenant.value else "*", now);
      assert queues[q] + [greeting] == [greeting];
      queues := queues[q := queues[q] + [greeting]];
    }

    method EmitJobAccepted(jobId: string, tenant: string, data: Option<map<string, string>>, now: int)
      requires Valid()
      modifies this
      ensures Valid() && jobSubs == old(jobSubs) && globalSubs == old(globalSubs)
      ensures queues == Delivered(old(queues), old(Subscribers(jobId)), Published(JobAcceptedEvent(jobId, tenant, data, now)))
    {
      Publish(JobAcceptedEvent(jobId, tenant, data, now));
    }

    method EmitPartialResult(jobId: string, tenant: string, data: map<string, string>, now: int)
      requires Valid()
      modifies this
      ensures Valid() && jobSubs == old(jobSubs) && globalSubs == old(globalSubs)
      ensures queues == Delivered(old(queues), old(Subscribers(jobId)), Published(PartialResultEvent(jobId, tenant, data, now)))
    {
      Publish(PartialResultEvent(jobId, tenant, data, now));
    }

    method EmitComplete(jobId: string, tenant: string, data: Option<map<string, string>>, now: int)
      requires Valid()
      modifies this
      ensures Valid() && jobSubs == old(jobSubs) && globalSubs == old(globalSubs)
      ensures queues == Delivered(old(queues), old(Subscribers(jobId)), Published(CompleteEvent(jobId, tenant, data, now)))
    {
      Publish(CompleteEvent(jobId, tenant, data, now));
    }

    method EmitError(jobId: string, tenant: string, error: string, data: Option<map<string, string>>, now: int)
      requires Valid()
      modifies this
      ensures Valid() && jobSubs == old(jobSubs) && globalSubs == old(globalSubs)
      ensures queues == Delivered(old(queues), old(Subscribers(jobId)), Published(ErrorEvent(jobId, tenant, error, data, now)))
    {
      Publish(ErrorEvent(jobId, tenant, error, data, now));
    }
  }
}
