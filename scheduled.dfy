/**
 * The periodic maintenance tasks: the review of the dead-letter queue, which
 * classifies its first entries as replayable or permanent without removing
 * any, and the cutoff of the event cleanup.
 */
module Scheduled {
  import opened Wrappers
  import Seqs
  import opened Json

  /** How many entries one review looks at. */
  const ReviewBatch: nat := 10

  /** Seconds in the seven days the event cleanup keeps. */
  const EventRetention: int := 7 * 24 * 3600

  /**
   * `data.get('error', {}).get('type', '')`: None where a `.get` is called on
   * something that is not an object, which raises.
   */
  function ErrorType(data: Value): (t: Option<Value>)
    ensures !data.Object? ==> t.None?
    ensures data.Object? && "error" !in data.fields ==> t == Some(Str(""))
  {
    if !data.Object? then None
    else
      var err := if "error" in data.fields then data.fields["error"] else Object(map[]);
      if !err.Object? then None
      else Some(if "type" in err.fields then err.fields["type"] else Str(""))
  }

  /** An entry worth replaying: it decodes, and its error type is a network error or a rate limit. */
  predicate Replayable(entry: string, parse: string -> Option<Value>)
  {
    parse(entry).Some? && ErrorType(parse(entry).value).Some? &&
    (ErrorType(parse(entry).value).value == Str("NETWORK_ERROR") || ErrorType(parse(entry).value).value == Str("RATE_LIMIT"))
  }

  /** `Replayable` as a test on entries alone. */
  function ReplayableUnder(parse: string -> Option<Value>): string -> bool
  {
    e => Replayable(e, parse)
  }

  /** The number of replayable entries of `es`. */
  function CountReplayable(es: seq<string>, parse: string -> Option<Value>): (n: nat)
    ensures n <= |es|
  {
    Seqs.CountWhere(es, ReplayableUnder(parse))
  }

  /** The entries a review looks at: `lrange(0, 9)`. */
  function ReviewWindow(queue: seq<string>): (es: seq<string>)
    ensures |es| == if |queue| < ReviewBatch then |queue| else ReviewBatch
    ensures es == queue[..|es|]
  {
    if |queue| < ReviewBatch then queue else queue[..ReviewBatch]
  }

  datatype DlqReport =
    | Empty
    | Reviewed(total: nat, reviewed: nat, replayable: nat, permanent: nat)
    | Failed(error: string)

  /**
   * The report of a review: the error reading the queue, "empty", or the
   * counts over the first ten entries, each either replayable or permanent.
   */
  function DlqReview(queue: Result<seq<string>, string>, parse: string -> Option<Value>): (r: DlqReport)
    ensures queue.Err? <==> r.Failed?
    ensures r.Empty? <==> queue == Ok([])
    ensures r.Reviewed? ==> r.total == |queue.value| && r.replayable + r.permanent == r.reviewed
    ensures r.Reviewed? ==> r.reviewed == (if r.total < ReviewBatch then r.total else ReviewBatch)
    ensures r.Reviewed? ==> r.replayable == |set i | 0 <= i < r.reviewed && Replayable(queue.value[i], parse)|
  {
    match queue
    case Err(e) => Failed(e)
    case Ok(q) =>
      if q == [] then Empty
      else
        var es := ReviewWindow(q);
        CountReplayableSpec(es, parse);
        assert (set i | 0 <= i < |es| && Replayable(es[i], parse)) == (set i | 0 <= i < |es| && Replayable(q[i], parse));
        Reviewed(|q|, |es|, CountReplayable(es, parse), |es| - CountReplayable(es, parse))
  }

  /**
   * `process_dead_letter_queue`. The queue is the dead-letter list as read
   * from Redis, or the description of the error reading it raised; `parse`
   * is `json.loads`, None where it raises. Nothing is removed from the queue.
   */
  method ProcessDeadLetterQueue(queue: Result<seq<string>, string>, parse: string -> Option<Value>) returns (r: DlqReport)
    ensures r == DlqReview(queue, parse)
  {
    if queue.Err? {
      return Failed(queue.error);
    }
    var total := |queue.value|;
    if total == 0 {
      return Empty;
    }
    var items := ReviewWindow(queue.value);
    var replayable, permanent := 0, 0;
    var i := 0;
    while i < |items|
      invariant 0 <= i <= |items|
      invariant replayable == CountReplayable(items[..i], parse) && replayable + permanent == i
    {
      assert items[..i + 1][..i] == items[..i];
      var data := parse(items[i]);
      if data.Some? {
        var t := ErrorType(data.value);
        if t.Some? && (t.value == Str("NETWORK_ERROR") || t.value == Str("RATE_LIMIT")) {
          replayable := replayable + 1;
        } else {
          permanent := permanent + 1;
        }
      } else {
        permanent := permanent + 1;
      }
      i := i + 1;
    }
    assert items[..i] == items;
    r := Reviewed(total, |items|, replayable, permanent);
  }

  /** The entries of the review that count as replayable, by position. */
  lemma CountReplayableSpec(es: seq<string>, parse: string -> Option<Value>)
    ensures CountReplayable(es, parse) == |set i | 0 <= i < |es| && Replayable(es[i], parse)|
  {
    var f := ReplayableUnder(parse);
    Seqs.CountWherePositions(es, f);
    var a := Seqs.Positions(es, f);
    var b := set i | 0 <= i < |es| && Replayable(es[i], parse);
    assert a == b by {
      forall i | 0 <= i < |es| ensures f(es[i]) == Replayable(es[i], parse) {
      }
    }
  }

  /** Every entry that does not decode counts as permanent. */
  lemma {:induction false} UnparsableIsPermanent(es: seq<string>, parse: string -> Option<Value>)
    requires forall i :: 0 <= i < |es| ==> parse(es[i]).None?
    ensures CountReplayable(es, parse) == 0
    decreases |es|
  {
    if es != [] {
      UnparsableIsPermanent(es[..|es| - 1], parse);
      assert !ReplayableUnder(parse)(es[|es| - 1]);
    }
  }

  /** `cleanup_old_events`: the cutoff seven days before now. */
  function EventCleanupCutoff(now: int): (cutoff: int)
    ensures cutoff < now
  {
    now - EventRetention
  }

  /** An event falls before the cutoff exactly when it is more than seven days old. */
  lemma EventCleanupAge(now: int, at: int)
    ensures at < EventCleanupCutoff(now) <==> now - at > EventRetention
  {
  }
}
