/** The job records of the HTTP API (`JobStatus`, `JobEvent`, `JobRecord`)
    and the status document they are persisted as. Timestamps are kept as
    their ISO-8601 text, which is what `to_dict` writes and `from_dict`
    reads back. */
module ApiRecords {
  import opened Basics
  import opened JsonValues

  datatype JobStatus = Pending | Running | Completed | Failed {
    /** The enum's string value. */
    function Value(): (v: string)
      ensures v in {"pending", "running", "completed", "failed"}
    {
      match this
      case Pending => "pending"
      case Running => "running"
      case Completed => "completed"
      case Failed => "failed"
    }

    predicate IsTerminal() {
      this == Completed || this == Failed
    }
  }

  /** `JobStatus(value)`: lookup by value, `ValueError` for anything else
      (including values that are not strings). */
  function ParseStatus(j: Json): (r: Option<JobStatus>)
    ensures r.Some? <==> j.JStr? && j.s in {"pending", "running", "completed", "failed"}
    ensures r.Some? ==> j == JStr(r.value.Value())
  {
    match j
    case JStr(s) =>
      if s == "pending" then Some(Pending)
      else if s == "running" then Some(Running)
      else if s == "completed" then Some(Completed)
      else if s == "failed" then Some(Failed)
      else None
    case _ => None
  }

  lemma StatusRoundTrip(st: JobStatus)
    ensures ParseStatus(JStr(st.Value())) == Some(st)
  {
  }

  datatype JobEvent = JobEvent(
    id: int,
    timestamp: string,
    event: string,
    message: Option<string>,
    data: Fields)

  datatype JobRecord = JobRecord(
    id: string,
    status: JobStatus,
    createdAt: string,
    updatedAt: string,
    request: Fields,
    events: seq<JobEvent>,
    result: Option<Fields>,
    error: Option<string>)

  /** The Python exception a malformed status document raises. */
  datatype LoadError = KeyError(key: string) | ValueError | TypeError

  function OptStr(o: Option<string>): Json {
    match o
    case None => JNull
    case Some(s) => JStr(s)
  }

  function OptObj(o: Option<Fields>): Json {
    match o
    case None => JNull
    case Some(f) => JObj(f)
  }

  /** `JobEvent.to_dict` */
  function EventToDict(e: JobEvent): Fields
  {
    [("id", JInt(e.id)),
     ("timestamp", JStr(e.timestamp)),
     ("event", JStr(e.event)),
     ("message", OptStr(e.message)),
     ("data", JObj(e.data))]
  }

  function EventsToJson(events: seq<JobEvent>): (items: seq<Json>)
    ensures |items| == |events|
    ensures forall k :: 0 <= k < |events| ==> items[k] == JObj(EventToDict(events[k]))
  {
    seq(|events|, k requires 0 <= k < |events| => JObj(EventToDict(events[k])))
  }

  /** `JobRecord.to_dict` */
  function ToDict(r: JobRecord): Fields
  {
    [("id", JStr(r.id)),
     ("status", JStr(r.status.Value())),
     ("created_at", JStr(r.createdAt)),
     ("updated_at", JStr(r.updatedAt)),
     ("request", JObj(r.request)),
     ("events", JArr(EventsToJson(r.events))),
     ("result", OptObj(r.result)),
     ("error", OptStr(r.error))]
  }

  /** `d[key]` */
  function Require(d: Fields, key: string): (r: Result<Json, LoadError>)
    ensures r.Ok? <==> Get(d, key).Some?
    ensures r.Err? ==> r.error == KeyError(key)
  {
    match Get(d, key)
    case Some(v) => Ok(v)
    case None => Err(KeyError(key))
  }

  /** `datetime.fromisoformat(value)`: a `TypeError` for a non-string. */
  function ParseDt(j: Json): (r: Result<string, LoadError>)
    ensures r.Ok? <==> j.JStr?
    ensures r.Ok? ==> r.value == j.s
  {
    if j.JStr? then Ok(j.s) else Err(TypeError)
  }

  function ReqStr(d: Fields, key: string): Result<string, LoadError> {
    match Require(d, key)
    case Err(e) => Err(e)
    case Ok(JStr(s)) => Ok(s)
    case Ok(_) => Err(TypeError)
  }

  /** `d.get(key)` where the value is an optional string. */
  function GetOptStr(d: Fields, key: string): Result<Option<string>, LoadError> {
    match Get(d, key)
    case None => Ok(None)
    case Some(JNull) => Ok(None)
    case Some(JStr(s)) => Ok(Some(s))
    case Some(_) => Err(TypeError)
  }

  /** `d.get(key)` where the value is an optional dict. */
  function GetOptObj(d: Fields, key: string): Result<Option<Fields>, LoadError> {
    match Get(d, key)
    case None => Ok(None)
    case Some(JNull) => Ok(None)
    case Some(JObj(f)) => Ok(Some(f))
    case Some(_) => Err(TypeError)
  }

  /** `d.get(key, {})` where the value must be a dict. */
  function GetObjOrEmpty(d: Fields, key: string): Result<Fields, LoadError> {
    match Get(d, key)
    case None => Ok([])
    case Some(JObj(f)) => Ok(f)
    case Some(_) => Err(TypeError)
  }

  /** The `JobEvent(...)` built from one element of the `events` list. */
  function EventFromJson(j: Json): (r: Result<JobEvent, LoadError>)
    ensures !j.JObj? ==> r == Err(TypeError)
  {
    if !j.JObj? then Err(TypeError)
    else
      var d := j.fields;
      match Require(d, "id")
      case Err(e) => Err(e)
      case Ok(idv) =>
        match Require(d, "timestamp")
        case Err(e) => Err(e)
        case Ok(tsv) =>
          match ParseDt(tsv)
          case Err(e) => Err(e)
          case Ok(ts) =>
            match ReqStr(d, "event")
            case Err(e) => Err(e)
            case Ok(ev) =>
              match GetOptStr(d, "message")
              case Err(e) => Err(e)
              case Ok(msg) =>
                match GetObjOrEmpty(d, "data")
                case Err(e) => Err(e)
                case Ok(data) =>
                  if idv.JInt? then Ok(JobEvent(idv.i, ts, ev, msg, data)) else Err(TypeError)
  }

  function EventsFromJson(items: seq<Json>): (r: Result<seq<JobEvent>, LoadError>)
    ensures r.Ok? ==> |r.value| == |items|
    ensures r.Ok? <==> forall k :: 0 <= k < |items| ==> EventFromJson(items[k]).Ok?
  {
    if items == [] then Ok([])
    else
      match EventFromJson(items[0])
      case Err(e) => Err(e)
      case Ok(ev) =>
        match EventsFromJson(items[1..])
        case Err(e) =>
          Err(e)
        case Ok(rest) =>
          assert forall k :: 1 <= k < |items| ==> items[k] == items[1..][k - 1];
          Ok([ev] + rest)
  }

  /** `datetime.fromisoformat(d[key])` */
  function ReqDt(d: Fields, key: string): Result<string, LoadError> {
    match Require(d, key)
    case Err(e) => Err(e)
    case Ok(v) => ParseDt(v)
  }

  /** `JobStatus(d["status"])` */
  function ReqStatus(d: Fields): Result<JobStatus, LoadError> {
    match Require(d, "status")
    case Err(e) => Err(e)
    case Ok(v) =>
      match ParseStatus(v)
      case None => Err(ValueError)
      case Some(st) => Ok(st)
  }

  /** The `events` list comprehension over `d.get("events", [])`; iterating
      follows Python, so a string or dict value is iterated too and its
      elements then fail to subscript. */
  function LoadEvents(d: Fields): Result<seq<JobEvent>, LoadError> {
    match Iterated(Get(d, "events").GetOr(JArr([])))
    case None => Err(TypeError)
    case Some(items) => EventsFromJson(items)
  }

  /** `JobRecord.from_dict`: the record a status document describes, or the
      exception that reading it raises, checked in the source's order.
      Missing `request`/`events` default to empty, missing `result`/`error`
      to None. */
  function FromDict(d: Fields): (r: Result<JobRecord, LoadError>)
    ensures r.Ok? ==> Get(d, "id") == Some(JStr(r.value.id))
    ensures r.Ok? ==> Get(d, "status") == Some(JStr(r.value.status.Value()))
  {
    match LoadEvents(d)
    case Err(e) => Err(e)
    case Ok(events) =>
      match ReqStr(d, "id")
      case Err(e) => Err(e)
      case Ok(id) =>
        match ReqStatus(d)
        case Err(e) => Err(e)
        case Ok(st) =>
          match ReqDt(d, "created_at")
          case Err(e) => Err(e)
          case Ok(created) =>
            match ReqDt(d, "updated_at")
            case Err(e) => Err(e)
            case Ok(updated) =>
              match GetObjOrEmpty(d, "request")
              case Err(e) => Err(e)
              case Ok(request) =>
                match GetOptObj(d, "result")
                case Err(e) => Err(e)
                case Ok(result) =>
                  match GetOptStr(d, "error")
                  case Err(e) => Err(e)
                  case Ok(error) =>
                    Ok(JobRecord(id, st, created, updated, request, events, result, error))
  }

  lemma EventRoundTrip(e: JobEvent)
    ensures EventFromJson(JObj(EventToDict(e))) == Ok(e)
  {
    var d := EventToDict(e);
    GetFirst(d, "id", 0);
    GetFirst(d, "timestamp", 1);
    GetFirst(d, "event", 2);
    GetFirst(d, "message", 3);
    GetFirst(d, "data", 4);
    assert Require(d, "id") == Ok(JInt(e.id));
    assert Require(d, "timestamp") == Ok(JStr(e.timestamp));
    assert ReqStr(d, "event") == Ok(e.event);
    assert GetOptStr(d, "message") == Ok(e.message);
    assert GetObjOrEmpty(d, "data") == Ok(e.data);
  }

  lemma {:induction false} EventsRoundTrip(events: seq<JobEvent>)
    ensures EventsFromJson(EventsToJson(events)) == Ok(events)
  {
    if events != [] {
      var items := EventsToJson(events);
      EventRoundTrip(events[0]);
      assert items[1..] == EventsToJson(events[1..]);
      EventsRoundTrip(events[1..]);
      assert [events[0]] + events[1..] == events;
    }
  }

  lemma OptObjRead(d: Fields, key: string, o: Option<Fields>)
    requires Get(d, key) == Some(OptObj(o))
    ensures GetOptObj(d, key) == Ok(o)
  {
  }

  lemma OptStrRead(d: Fields, key: string, o: Option<string>)
    requires Get(d, key) == Some(OptStr(o))
    ensures GetOptStr(d, key) == Ok(o)
  {
  }

  /** Every field `from_dict` reads from a written status document holds
      the value `to_dict` put there. */
  lemma ToDictReads(r: JobRecord)
    ensures LoadEvents(ToDict(r)) == Ok(r.events)
    ensures ReqStr(ToDict(r), "id") == Ok(r.id)
    ensures ReqStatus(ToDict(r)) == Ok(r.status)
    ensures ReqDt(ToDict(r), "created_at") == Ok(r.createdAt)
    ensures ReqDt(ToDict(r), "updated_at") == Ok(r.updatedAt)
    ensures GetObjOrEmpty(ToDict(r), "request") == Ok(r.request)
    ensures GetOptObj(ToDict(r), "result") == Ok(r.result)
    ensures GetOptStr(ToDict(r), "error") == Ok(r.error)
  {
    ReadsEvents(r);
    ReadsHeader(r);
    ReadsBody(r);
  }

  lemma ReadsEvents(r: JobRecord)
    ensures LoadEvents(ToDict(r)) == Ok(r.events)
  {
    GetFirst(ToDict(r), "events", 5);
    EventsRoundTrip(r.events);
  }

  lemma ReadsHeader(r: JobRecord)
    ensures ReqStr(ToDict(r), "id") == Ok(r.id)
    ensures ReqStatus(ToDict(r)) == Ok(r.status)
    ensures ReqDt(ToDict(r), "created_at") == Ok(r.createdAt)
    ensures ReqDt(ToDict(r), "updated_at") == Ok(r.updatedAt)
  {
    var d := ToDict(r);
    GetFirst(d, "id", 0);
    GetFirst(d, "status", 1);
    StatusRoundTrip(r.status);
    GetFirst(d, "created_at", 2);
    GetFirst(d, "updated_at", 3);
  }

  lemma ReadsBody(r: JobRecord)
    ensures GetObjOrEmpty(ToDict(r), "request") == Ok(r.request)
    ensures GetOptObj(ToDict(r), "result") == Ok(r.result)
    ensures GetOptStr(ToDict(r), "error") == Ok(r.error)
  {
    var d := ToDict(r);
    GetFirst(d, "request", 4);
    GetFirst(d, "result", 6);
    OptObjRead(d, "result", r.result);
    GetFirst(d, "error", 7);
    OptStrRead(d, "error", r.error);
  }

  /** Reading back a written status document gives the same record. */
  lemma RecordRoundTrip(r: JobRecord)
    ensures FromDict(ToDict(r)) == Ok(r)
  {
    ToDictReads(r);
  }

  /** A status document that is not a list of objects under `events`
      cannot be loaded. */
  lemma NonIterableEventsRejected(d: Fields)
    requires Get(d, "events") == Some(JNull) || (exists i :: Get(d, "events") == Some(JInt(i)))
    ensures FromDict(d) == Err(TypeError)
  {
  }

  /** A `status` event whose `data.status` is `completed` or `failed`: the
      event after which a stream ends. */
  predicate IsTerminalEvent(e: JobEvent) {
    e.event == "status"
    && (Get(e.data, "status") == Some(JStr("completed")) || Get(e.data, "status") == Some(JStr("failed")))
  }

  /** The event ids of a record are exactly 1..N in order. */
  predicate SequentialIds(events: seq<JobEvent>) {
    forall k :: 0 <= k < |events| ==> events[k].id == k + 1
  }
}
