/** The HTTP API's `JobStore`: the in-memory map from job id to record,
    written through to one `status.json` document per job directory.
    Directory contents are modelled as the documents themselves, the clock
    and the random job id as parameters. */
module ApiStore {
  import opened Basics
  import opened JsonValues
  import opened ApiRecords

  /** One child of the storage root as the loader sees it; `content` is None
      when the file is not valid JSON. */
  datatype DirEntry = NotADirectory | NoStatusFile | StatusFile(content: Option<Json>)

  /** The record a directory entry contributes, if reading it raises nothing
      (the loader skips an entry on any exception). */
  function Parsed(e: DirEntry): (r: Option<JobRecord>)
    ensures r.Some? ==> e.StatusFile? && e.content.Some? && e.content.value.JObj?
  {
    match e
    case StatusFile(Some(JObj(d))) =>
      (match FromDict(d)
       case Ok(rec) => Some(rec)
       case Err(_) => None)
    case _ => None
  }

  function RecordId(rec: JobRecord): string {
    rec.id
  }

  /** The job map `_load_existing_jobs` builds from the entries in iteration
      order: each parsed record is stored under its own id, a later one
      replacing an earlier one with the same id. */
  function Loaded(entries: seq<DirEntry>): map<string, JobRecord> {
    Indexed(Parsed, RecordId, entries)
  }

  /** Every loaded record sits under its own id, and only ids of parsed
      entries are loaded. */
  lemma LoadedKeys(entries: seq<DirEntry>)
    ensures forall id :: id in Loaded(entries) ==> Loaded(entries)[id].id == id
    ensures forall id :: id in Loaded(entries) <==>
      exists i :: 0 <= i < |entries| && Parsed(entries[i]).Some? && Parsed(entries[i]).value.id == id
  {
    IndexedKeys(Parsed, RecordId, entries);
  }

  /** The record loaded for an id is the one from the last entry that parses
      with that id. */
  lemma LoadedLatest(entries: seq<DirEntry>, i: nat)
    requires i < |entries| && Parsed(entries[i]).Some?
    requires forall j :: i < j < |entries| && Parsed(entries[j]).Some? ==>
      Parsed(entries[j]).value.id != Parsed(entries[i]).value.id
    ensures Parsed(entries[i]).value.id in Loaded(entries)
    ensures Loaded(entries)[Parsed(entries[i]).value.id] == Parsed(entries[i]).value
  {
    IndexedLatest(Parsed, RecordId, entries, i);
  }

  /** The status documents of the given jobs, one directory each. */
  function StatusEntries(files: map<string, Json>, ids: seq<string>): (r: seq<DirEntry>)
    requires forall k :: 0 <= k < |ids| ==> ids[k] in files
    ensures |r| == |ids|
  {
    seq(|ids|, k requires 0 <= k < |ids| => StatusFile(Some(files[ids[k]])))
  }

  /** Crash recovery: loading the status documents a store has written
      gives back exactly the records it held for those jobs. */
  lemma {:induction false} ReloadWritten(files: map<string, Json>, jobs: map<string, JobRecord>, ids: seq<string>)
    requires forall id :: id in files ==> id in jobs && jobs[id].id == id && files[id] == JObj(ToDict(jobs[id]))
    requires forall k :: 0 <= k < |ids| ==> ids[k] in files
    ensures Loaded(StatusEntries(files, ids)) == map id | id in ids :: jobs[id]
  {
    var entries := StatusEntries(files, ids);
    if ids != [] {
      var last := |ids| - 1;
      var init := ids[..last];
      assert entries[..last] == StatusEntries(files, init);
      ReloadWritten(files, jobs, init);
      WrittenParses(files, jobs, ids[last]);
      assert entries[last] == StatusFile(Some(files[ids[last]]));
      assert ids == init + [ids[last]];
      RestrictSnoc(jobs, init, ids[last]);
    }
  }

  /** A status document the store wrote parses to the record it held. */
  lemma WrittenParses(files: map<string, Json>, jobs: map<string, JobRecord>, id: string)
    requires id in files && id in jobs && jobs[id].id == id && files[id] == JObj(ToDict(jobs[id]))
    ensures Parsed(StatusFile(Some(files[id]))) == Some(jobs[id])
    ensures RecordId(jobs[id]) == id
  {
    RecordRoundTrip(jobs[id]);
  }

  /** The record `create_job` stores. */
  function NewRecord(id: string, request: Fields, now: string): JobRecord {
    JobRecord(id, Pending, now, now, request, [], None, None)
  }

  /** The record after `update_status`: status and timestamp set, and both
      `error` and `result` overwritten by the arguments. */
  function WithStatus(rec: JobRecord, status: JobStatus, error: Option<string>, result: Option<Fields>, now: string): JobRecord {
    rec.(status := status, updatedAt := now, error := error, result := result)
  }

  /** The event `append_event` creates for a record. */
  function NextEvent(rec: JobRecord, event: string, message: Option<string>, data: Option<Fields>, now: string): (e: JobEvent)
    ensures e.id == |rec.events| + 1
    ensures data.None? ==> e.data == []
  {
    JobEvent(|rec.events| + 1, now, event, message, if data.Some? then data.value else [])
  }

  /** The record after `append_event`. */
  function WithEvent(rec: JobRecord, e: JobEvent): JobRecord {
    rec.(events := rec.events + [e], updatedAt := e.timestamp)
  }

  /** Appending keeps the event ids exactly 1..N, and earlier events are
      left as they were. */
  lemma AppendKeepsSequential(rec: JobRecord, event: string, message: Option<string>, data: Option<Fields>, now: string)
    requires SequentialIds(rec.events)
    ensures SequentialIds(WithEvent(rec, NextEvent(rec, event, message, data, now)).events)
    ensures WithEvent(rec, NextEvent(rec, event, message, data, now)).events[..|rec.events|] == rec.events
  {
  }

  /** A status change keeps the event list, hence its ids. */
  lemma StatusKeepsEvents(rec: JobRecord, status: JobStatus, error: Option<string>, result: Option<Fields>, now: string)
    ensures WithStatus(rec, status, error, result, now).events == rec.events
    ensures status == Completed && error.None? ==> WithStatus(rec, status, error, result, now).error.None?
    ensures status == Failed && result.None? ==> WithStatus(rec, status, error, result, now).result.None?
  {
  }

  class JobStore {
    /** `_jobs` */
    var jobs: map<string, JobRecord>
    /** The `status.json` document last written under each job directory. */
    var statusFiles: map<string, Json>
    /** The `request.json` document written under each job directory. */
    var requestFiles: map<string, Json>

    /** Every record sits under its own id, and every status document this
        store wrote is the current record's `to_dict`. */
    ghost predicate Valid()
      reads this
    {
      (forall id :: id in jobs ==> jobs[id].id == id)
      && (forall id :: id in statusFiles ==> id in jobs && statusFiles[id] == JObj(ToDict(jobs[id])))
    }

    /** `JobStore(storage_root)`: loads the records found under the root. */
    constructor(entries: seq<DirEntry>)
      ensures Valid()
      ensures jobs == Loaded(entries)
      ensures statusFiles == map[] && requestFiles == map[]
    {
      var m: map<string, JobRecord> := map[];
      var i := 0;
      while i < |entries|
        invariant 0 <= i <= |entries|
        invariant m == Loaded(entries[..i])
      {
        IndexedStep(Parsed, RecordId, entries, i);
        var parsed := Parsed(entries[i]);
        if parsed.Some? {
          m := m[parsed.value.id := parsed.value];
        }
        i := i + 1;
      }
      assert entries[..|entries|] == entries;
      LoadedKeys(entries);
      jobs := m;
      statusFiles := map[];
      requestFiles := map[];
    }

    /** `create_job`: a pending record with no events, result or error,
        stored (and written) under the given fresh id. */
    method CreateJob(request: Fields, jobId: string, now: string) returns (rec: JobRecord)
      requires Valid()
      modifies this
      ensures Valid()
      ensures rec.id == jobId && rec.status == Pending && rec.request == request
      ensures rec.createdAt == now && rec.updatedAt == rec.createdAt
      ensures rec.events == [] && rec.result.None? && rec.error.None?
      ensures jobs == old(jobs)[jobId := rec]
      ensures statusFiles == old(statusFiles)[jobId := JObj(ToDict(rec))]
      ensures requestFiles == old(requestFiles)[jobId := JObj(request)]
    {
      rec := NewRecord(jobId, request, now);
      jobs := jobs[jobId := rec];
      requestFiles := requestFiles[jobId := JObj(request)];
      statusFiles := statusFiles[jobId := JObj(ToDict(rec))];
    }

    /** `get_job` */
    method GetJob(jobId: string) returns (r: Option<JobRecord>)
      requires Valid()
      ensures r.Some? <==> jobId in jobs
      ensures r.Some? ==> r.value == jobs[jobId] && r.value.id == jobId
    {
      if jobId in jobs {
        r := Some(jobs[jobId]);
      } else {
        r := None;
      }
    }

    /** `update_status`: `KeyError` and no change for an unknown id;
        otherwise status, `updated_at`, `error` and `result` are all
        replaced and the change is written through. */
    method UpdateStatus(jobId: string, status: JobStatus, error: Option<string>, result: Option<Fields>, now: string)
      returns (r: Result<JobRecord, LoadError>)
      requires Valid()
      modifies this
      ensures Valid()
      ensures jobId !in old(jobs) ==> r == Err(KeyError(jobId)) && unchanged(this)
      ensures jobId in old(jobs) ==>
        && r.Ok?
        && r.value.id == jobId && r.value.status == status && r.value.updatedAt == now
        && r.value.error == error && r.value.result == result
        && r.value.events == old(jobs)[jobId].events
        && r.value.createdAt == old(jobs)[jobId].createdAt
        && r.value.request == old(jobs)[jobId].request
        && r.value == WithStatus(old(jobs)[jobId], status, error, result, now)
        && jobs == old(jobs)[jobId := r.value]
        && statusFiles == old(statusFiles)[jobId := JObj(ToDict(r.value))]
        && requestFiles == old(requestFiles)
    {
      if jobId !in jobs {
        return Err(KeyError(jobId));
      }
      var rec := WithStatus(jobs[jobId], status, error, result, now);
      jobs := jobs[jobId := rec];
      statusFiles := statusFiles[jobId := JObj(ToDict(rec))];
      r := Ok(rec);
    }

    /** `append_event`: `KeyError` and no change for an unknown id;
        otherwise an event numbered one past the last is appended, its
        timestamp becomes `updated_at`, and the change is written through. */
    method AppendEvent(jobId: string, event: string, message: Option<string>, data: Option<Fields>, now: string)
      returns (r: Result<JobEvent, LoadError>)
      requires Valid()
      modifies this
      ensures Valid()
      ensures jobId !in old(jobs) ==> r == Err(KeyError(jobId)) && unchanged(this)
      ensures jobId in old(jobs) ==>
        && r.Ok?
        && r.value.id == |old(jobs)[jobId].events| + 1
        && r.value == JobEvent(r.value.id, now, event, message, data.GetOr([]))
        && r.value == NextEvent(old(jobs)[jobId], event, message, data, now)
        && jobId in jobs
        && jobs[jobId].events == old(jobs)[jobId].events + [r.value]
        && jobs == old(jobs)[jobId := WithEvent(old(jobs)[jobId], r.value)]
        && statusFiles == old(statusFiles)[jobId := JObj(ToDict(jobs[jobId]))]
        && requestFiles == old(requestFiles)
    {
      if jobId !in jobs {
        return Err(KeyError(jobId));
      }
      var rec := jobs[jobId];
      var e := NextEvent(rec, event, message, data, now);
      var updated := WithEvent(rec, e);
      jobs := jobs[jobId := updated];
      statusFiles := statusFiles[jobId := JObj(ToDict(updated))];
      r := Ok(e);
    }
  }
}
