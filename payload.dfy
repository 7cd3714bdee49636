/**
 * The values that travel from the ingestion endpoint to the worker: the
 * submitted items, the optional date range and the job payload dictionary.
 * Times are integer timestamps standing for the ISO strings of the source.
 */
module Payload {
  import opened Wrappers

  datatype DateRange = DateRange(start: int, end: int)

  /** A key of an item dictionary: missing, present with None, or present with a value. */
  datatype Field<T> = Absent | Null | Present(value: T)

  /** `d.get(k, default)`: None only for a stored None. */
  function Get<T>(f: Field<T>, default: T): Option<T>
  {
    match f
    case Absent => Some(default)
    case Null => None
    case Present(v) => Some(v)
  }

  /** `d.get(k)`. */
  function Opt<T>(f: Field<T>): Option<T>
  {
    if f.Present? then Some(f.value) else None
  }

  /** One pre-fetched item of a request; every field is optional. */
  datatype IngestItem = IngestItem(
    id: Option<string>,
    content: Option<string>,
    url: Option<string>,
    author: Option<string>,
    timestamp: Option<int>,
    metadata: Option<map<string, string>>)

  /** The `job_data` dictionary handed to the worker. */
  datatype JobData = JobData(
    jobId: string,
    sourceType: string,
    items: Option<seq<IngestItem>>,
    accounts: Option<seq<string>>,
    keywords: Option<seq<string>>,
    dateRange: Option<DateRange>,
    mode: string,
    tenant: string,
    priority: string,
    acceptedAt: int)
}
