/** Job submission and the job lifecycle of the HTTP API: `emit_event`,
    `submit_job` and `_run_job`. The snapshot collaborator is represented
    by the progress events it emits and the outcome it ends with; every
    step uses the same timestamp `now`. */
module ApiOrchestrator {
  import opened Basics
  import opened JsonValues
  import opened ApiRecords
  import opened ApiStore
  import opened ApiBroker

  /** One `emit_event(job_id, event, message, **data)` call. */
  datatype Emission = Emission(event: string, message: Option<string>, data: Fields)

  /** How the collaborator ends: it returns a result dict, or raises an
      exception of the named class with the given `str()`. */
  datatype Outcome = Returned(result: Fields) | Raised(className: string, text: string)

  /** `f"{exc.__class__.__name__}: {exc}"` */
  function ErrorText(className: string, text: string): string {
    className + ": " + text
  }

  function StatusData(st: JobStatus): Fields {
    [("status", JStr(st.Value()))]
  }

  function Started(): Emission {
    Emission("status", Some("Job started"), StatusData(Running))
  }

  /** The status `_run_job` records once the collaborator has finished. */
  function FinalStatus(o: Outcome): JobStatus {
    if o.Returned? then Completed else Failed
  }

  /** The last event `_run_job` emits. */
  function TerminalEmission(o: Outcome): Emission {
    match o
    case Returned(result) =>
      Emission("status", Some("Job completed"), StatusData(Completed) + [("result_summary", JObj(result))])
    case Raised(className, text) =>
      Emission("status", Some("Job failed"), StatusData(Failed) + [("error", JStr(ErrorText(className, text)))])
  }

  /** The record after `append_event` for one emission. */
  function AppendEmission(rec: JobRecord, em: Emission, now: string): JobRecord {
    WithEvent(rec, NextEvent(rec, em.event, em.message, Some(em.data), now))
  }

  /** The record after a series of emissions, in order. */
  function AppendAll(rec: JobRecord, ems: seq<Emission>, now: string): JobRecord {
    if ems == [] then rec
    else AppendEmission(AppendAll(rec, ems[..|ems| - 1], now), ems[|ems| - 1], now)
  }

  /** The events a series of emissions appends to a list of `n` events. */
  function NewEvents(n: nat, ems: seq<Emission>, now: string): (r: seq<JobEvent>)
    ensures |r| == |ems|
  {
    seq(|ems|, k requires 0 <= k < |ems| => JobEvent(n + k + 1, now, ems[k].event, ems[k].message, ems[k].data))
  }

  function Payloads(events: seq<JobEvent>): (r: seq<Fields>)
    ensures |r| == |events|
  {
    seq(|events|, k requires 0 <= k < |events| => EventToDict(events[k]))
  }

  /** Emitting appends one event per emission, numbered on from the last,
      and changes nothing else but `updated_at` (when anything is emitted). */
  lemma {:induction false} AppendAllEvents(rec: JobRecord, ems: seq<Emission>, now: string)
    ensures AppendAll(rec, ems, now).events == rec.events + NewEvents(|rec.events|, ems, now)
    ensures AppendAll(rec, ems, now) == rec.(events := AppendAll(rec, ems, now).events,
                                             updatedAt := AppendAll(rec, ems, now).updatedAt)
    ensures ems != [] ==> AppendAll(rec, ems, now).updatedAt == now
  {
    if ems != [] {
      var init := ems[..|ems| - 1];
      AppendAllEvents(rec, init, now);
      assert NewEvents(|rec.events|, ems, now) == NewEvents(|rec.events|, init, now) + [NewEvents(|rec.events|, ems, now)[|ems| - 1]];
    }
  }

  /** The record after the collaborator finished: the final status with
      its `result` or `error`, then the terminal event. */
  function Concluded(running: JobRecord, o: Outcome, now: string): JobRecord {
    var error := if o.Raised? then Some(ErrorText(o.className, o.text)) else None;
    var result := if o.Returned? then Some(o.result) else None;
    AppendEmission(WithStatus(running, FinalStatus(o), error, result, now), TerminalEmission(o), now)
  }

  /** The record `_run_job` leaves behind for a job that exists: RUNNING
      (which clears `error` and `result`), the "started" event, the
      collaborator's events, the final status with its `result` or `error`,
      and the terminal event. */
  function Finished(rec: JobRecord, progress: seq<Emission>, o: Outcome, now: string): JobRecord {
    Concluded(AppendAll(WithStatus(rec, Running, None, None, now), [Started()] + progress, now), o, now)
  }

  /** The events `_run_job` appends to a record that has `n` events. */
  function RunEvents(n: nat, progress: seq<Emission>, o: Outcome, now: string): seq<JobEvent> {
    NewEvents(n, [Started()] + progress + [TerminalEmission(o)], now)
  }

  lemma FinishedEvents(rec: JobRecord, progress: seq<Emission>, o: Outcome, now: string)
    ensures Finished(rec, progress, o, now).events == rec.events + RunEvents(|rec.events|, progress, o, now)
    ensures Finished(rec, progress, o, now).id == rec.id
    ensures Finished(rec, progress, o, now).request == rec.request
    ensures Finished(rec, progress, o, now).createdAt == rec.createdAt
  {
    var ems := [Started()] + progress;
    var base := WithStatus(rec, Running, None, None, now);
    AppendAllEvents(base, ems, now);
    var all := ems + [TerminalEmission(o)];
    assert NewEvents(|rec.events|, all, now) == NewEvents(|rec.events|, ems, now) + [NewEvents(|rec.events|, all, now)[|ems|]];
  }

  /** What `_run_job` promises about a job that exists: the new events are
      numbered on from the old ones, the first announces RUNNING, the last
      is the one terminal event, the status is COMPLETED with the result and
      no error, or FAILED with the error text and no result. */
  lemma {:induction false} RunJobLifecycle(rec: JobRecord, progress: seq<Emission>, o: Outcome, now: string)
    requires SequentialIds(rec.events)
    requires forall k :: 0 <= k < |progress| ==> progress[k].event != "status"
    ensures var f := Finished(rec, progress, o, now);
      && SequentialIds(f.events)
      && |f.events| == |rec.events| + |progress| + 2
      && f.events[..|rec.events|] == rec.events
      && f.events[|rec.events|].event == "status"
      && Get(f.events[|rec.events|].data, "status") == Some(JStr("running"))
      && IsTerminalEvent(f.events[|f.events| - 1])
      && (forall k :: 0 <= k < |f.events| - 1 && k >= |rec.events| ==> !IsTerminalEvent(f.events[k]))
      && f.status.IsTerminal()
      && (f.status == Completed <==> o.Returned?)
      && (o.Returned? ==> f.result == Some(o.result) && f.error.None?)
      && (o.Raised? ==> f.error == Some(ErrorText(o.className, o.text)) && f.result.None?)
      && f.id == rec.id && f.request == rec.request && f.createdAt == rec.createdAt
  {
    var f := Finished(rec, progress, o, now);
    var n := |rec.events|;
    FinishedEvents(rec, progress, o, now);
    var added := RunEvents(n, progress, o, now);
    RunEventsShape(n, progress, o, now);
    assert f.events[n] == added[0];
    assert f.events[|f.events| - 1] == added[|added| - 1];
    forall k | 0 <= k < |f.events| - 1 && k >= n
      ensures !IsTerminalEvent(f.events[k])
    {
      assert f.events[k] == added[k - n];
    }
  }

  /** The events `_run_job` appends: numbered on from `n`, RUNNING first,
      the terminal event last and nowhere before. */
  lemma RunEventsShape(n: nat, progress: seq<Emission>, o: Outcome, now: string)
    requires forall k :: 0 <= k < |progress| ==> progress[k].event != "status"
    ensures var added := RunEvents(n, progress, o, now);
      && |added| == |progress| + 2
      && (forall k :: 0 <= k < |added| ==> added[k].id == n + k + 1)
      && added[0].event == "status"
      && Get(added[0].data, "status") == Some(JStr("running"))
      && IsTerminalEvent(added[|added| - 1])
      && (forall k :: 0 <= k < |added| - 1 ==> !IsTerminalEvent(added[k]))
  {
    var ems := [Started()] + progress + [TerminalEmission(o)];
    var added := RunEvents(n, progress, o, now);
    GetFirst(added[0].data, "status", 0);
    GetFirst(TerminalEmission(o).data, "status", 0);
    forall k | 0 <= k < |added| - 1
      ensures !IsTerminalEvent(added[k])
    {
      if k > 0 {
        assert ems[k] == progress[k - 1];
      } else {
        GetFirst(Started().data, "status", 0);
      }
    }
  }

  /** The queue contents after payloads have been fanned out to every queue
      subscribed to the job. */
  ghost predicate FannedOut(before: map<nat, seq<Fields>>, after: map<nat, seq<Fields>>,
                            subs: map<string, seq<nat>>, jobId: string, payloads: seq<Fields>) {
    && after.Keys == before.Keys
    && forall q :: q in after ==>
         after[q] == before[q] + (if jobId in subs && q in subs[jobId] then payloads else [])
  }

  lemma FannedOutTrans(a: map<nat, seq<Fields>>, b: map<nat, seq<Fields>>, c: map<nat, seq<Fields>>,
                       subs: map<string, seq<nat>>, jobId: string, p1: seq<Fields>, p2: seq<Fields>)
    requires FannedOut(a, b, subs, jobId, p1) && FannedOut(b, c, subs, jobId, p2)
    ensures FannedOut(a, c, subs, jobId, p1 + p2)
  {
  }

  /** `emit_event`: append the event to the job's history, then publish its
      dict to the job's subscribers. An unknown job raises `KeyError` before
      anything is published. */
  method EmitEvent(store: JobStore, broker: EventBroker, jobId: string, em: Emission, now: string)
    returns (r: Result<Fields, LoadError>)
    requires store.Valid() && broker.Valid()
    modifies store, broker
    ensures store.Valid() && broker.Valid()
    ensures jobId !in old(store.jobs) ==> r == Err(KeyError(jobId)) && unchanged(store) && unchanged(broker)
    ensures jobId in old(store.jobs) ==>
      && store.jobs == old(store.jobs)[jobId := AppendEmission(old(store.jobs)[jobId], em, now)]
      && r == Ok(EventToDict(NextEvent(old(store.jobs)[jobId], em.event, em.message, Some(em.data), now)))
      && store.requestFiles == old(store.requestFiles)
      && broker.subscribers == old(broker.subscribers) && broker.nextQueue == old(broker.nextQueue)
      && FannedOut(old(broker.queues), broker.queues, broker.subscribers, jobId, [r.value])
  {
    var appended := store.AppendEvent(jobId, em.event, em.message, Some(em.data), now);
    if appended.Err? {
      return Err(appended.error);
    }
    var payload := EventToDict(appended.value);
    broker.Publish(jobId, payload);
    r := Ok(payload);
  }

  /** `submit_job`: create the pending record and announce it with a
      "Job created" status event. */
  method SubmitJob(store: JobStore, broker: EventBroker, request: Fields, jobId: string, now: string)
    returns (rec: JobRecord)
    requires store.Valid() && broker.Valid()
    modifies store, broker
    ensures store.Valid() && broker.Valid()
    ensures rec == NewRecord(jobId, request, now)
    ensures store.jobs == old(store.jobs)[jobId := AppendEmission(rec, Emission("status", Some("Job created"), StatusData(Pending)), now)]
    ensures broker.subscribers == old(broker.subscribers)
    ensures FannedOut(old(broker.queues), broker.queues, broker.subscribers, jobId,
                      [EventToDict(JobEvent(1, now, "status", Some("Job created"), StatusData(Pending)))])
  {
    var created := Emission("status", Some("Job created"), StatusData(Pending));
    rec := store.CreateJob(request, jobId, now);
    assert NextEvent(rec, created.event, created.message, Some(created.data), now)
      == JobEvent(1, now, "status", Some("Job created"), StatusData(Pending));
    MapUpdateTwice(old(store.jobs), jobId, rec, AppendEmission(rec, created, now));
    var _ := EmitEvent(store, broker, jobId, created, now);
  }

  lemma {:induction false} EmitStep(base: JobRecord, ems: seq<Emission>, i: nat, now: string)
    requires i < |ems|
    ensures AppendAll(base, ems[..i + 1], now) == AppendEmission(AppendAll(base, ems[..i], now), ems[i], now)
    ensures Payloads(NewEvents(|base.events|, ems[..i + 1], now))
      == Payloads(NewEvents(|base.events|, ems[..i], now))
       + [EventToDict(NextEvent(AppendAll(base, ems[..i], now), ems[i].event, ems[i].message, Some(ems[i].data), now))]
  {
    assert ems[..i + 1][..i] == ems[..i];
    AppendAllEvents(base, ems[..i], now);
  }

  /** One more `emit_event` call of a series. */
  method EmitNext(store: JobStore, broker: EventBroker, jobId: string, ems: seq<Emission>, i: nat, now: string,
                  ghost jobs0: map<string, JobRecord>, ghost queues0: map<nat, seq<Fields>>, ghost base: JobRecord)
    requires store.Valid() && broker.Valid()
    requires i < |ems|
    requires store.jobs == jobs0[jobId := AppendAll(base, ems[..i], now)]
    requires FannedOut(queues0, broker.queues, broker.subscribers, jobId, Payloads(NewEvents(|base.events|, ems[..i], now)))
    modifies store, broker
    ensures store.Valid() && broker.Valid()
    ensures store.jobs == jobs0[jobId := AppendAll(base, ems[..i + 1], now)]
    ensures broker.subscribers == old(broker.subscribers)
    ensures FannedOut(queues0, broker.queues, broker.subscribers, jobId, Payloads(NewEvents(|base.events|, ems[..i + 1], now)))
  {
    var before := broker.queues;
    var cur := AppendAll(base, ems[..i], now);
    var payload := EventToDict(NextEvent(cur, ems[i].event, ems[i].message, Some(ems[i].data), now));
    EmitStep(base, ems, i, now);
    MapUpdateTwice(jobs0, jobId, cur, AppendEmission(cur, ems[i], now));
    var _ := EmitEvent(store, broker, jobId, ems[i], now);
    FannedOutTrans(queues0, before, broker.queues, broker.subscribers, jobId,
                   Payloads(NewEvents(|base.events|, ems[..i], now)), [payload]);
  }

  /** A series of `emit_event` calls for a job that exists. */
  method EmitAll(store: JobStore, broker: EventBroker, jobId: string, ems: seq<Emission>, now: string)
    requires store.Valid() && broker.Valid()
    requires jobId in store.jobs
    modifies store, broker
    ensures store.Valid() && broker.Valid()
    ensures store.jobs == old(store.jobs)[jobId := AppendAll(old(store.jobs)[jobId], ems, now)]
    ensures broker.subscribers == old(broker.subscribers)
    ensures FannedOut(old(broker.queues), broker.queues, broker.subscribers, jobId,
                      Payloads(NewEvents(|old(store.jobs)[jobId].events|, ems, now)))
  {
    var base := store.jobs[jobId];
    var n := |base.events|;
    var i := 0;
    while i < |ems|
      invariant 0 <= i <= |ems|
      invariant store.Valid() && broker.Valid()
      invariant store.jobs == old(store.jobs)[jobId := AppendAll(base, ems[..i], now)]
      invariant broker.subscribers == old(broker.subscribers)
      invariant FannedOut(old(broker.queues), broker.queues, broker.subscribers, jobId,
                          Payloads(NewEvents(n, ems[..i], now)))
    {
      EmitNext(store, broker, jobId, ems, i, now, old(store.jobs), old(broker.queues), base);
      i := i + 1;
    }
    assert ems[..i] == ems;
  }

  lemma RunPayloads(n: nat, progress: seq<Emission>, o: Outcome, now: string)
    ensures Payloads(RunEvents(n, progress, o, now))
      == Payloads(NewEvents(n, [Started()] + progress, now))
       + [EventToDict(JobEvent(n + |progress| + 2, now, "status", TerminalEmission(o).message, TerminalEmission(o).data))]
  {
    var ems := [Started()] + progress;
    var all := ems + [TerminalEmission(o)];
    assert NewEvents(n, all, now) == NewEvents(n, ems, now) + [NewEvents(n, all, now)[|ems|]];
  }

  /** The last two steps of `_run_job` for a job that exists. */
  method Conclude(store: JobStore, broker: EventBroker, jobId: string, o: Outcome, now: string)
    requires store.Valid() && broker.Valid()
    requires jobId in store.jobs
    modifies store, broker
    ensures store.Valid() && broker.Valid()
    ensures store.jobs == old(store.jobs)[jobId := Concluded(old(store.jobs)[jobId], o, now)]
    ensures broker.subscribers == old(broker.subscribers)
    ensures FannedOut(old(broker.queues), broker.queues, broker.subscribers, jobId,
                      [EventToDict(JobEvent(|old(store.jobs)[jobId].events| + 1, now, "status",
                                            TerminalEmission(o).message, TerminalEmission(o).data))])
  {
    var running := store.jobs[jobId];
    var error := if o.Raised? then Some(ErrorText(o.className, o.text)) else None;
    var result := if o.Returned? then Some(o.result) else None;
    var updated := store.UpdateStatus(jobId, FinalStatus(o), error, result, now);
    var final := WithStatus(running, FinalStatus(o), error, result, now);
    assert updated == Ok(final);
    MapUpdateTwice(old(store.jobs), jobId, final, AppendEmission(final, TerminalEmission(o), now));
    var _ := EmitEvent(store, broker, jobId, TerminalEmission(o), now);
  }

  /** `_run_job`: nothing happens for an unknown job; otherwise the record
      ends as `Finished` says and every event appended on the way is
      published, in order, to the job's subscribers. */
  method RunJob(store: JobStore, broker: EventBroker, jobId: string, progress: seq<Emission>, o: Outcome, now: string)
    requires store.Valid() && broker.Valid()
    modifies store, broker
    ensures store.Valid() && broker.Valid()
    ensures jobId !in old(store.jobs) ==> unchanged(store) && unchanged(broker)
    ensures jobId in old(store.jobs) ==>
      && store.jobs == old(store.jobs)[jobId := Finished(old(store.jobs)[jobId], progress, o, now)]
      && broker.subscribers == old(broker.subscribers)
      && FannedOut(old(broker.queues), broker.queues, broker.subscribers, jobId,
                   Payloads(RunEvents(|old(store.jobs)[jobId].events|, progress, o, now)))
  {
    var found := store.GetJob(jobId);
    if found.None? {
      return;
    }
    var rec := found.value;
    var n := |rec.events|;
    var _ := store.UpdateStatus(jobId, Running, None, None, now);
    var base := WithStatus(rec, Running, None, None, now);
    var ems := [Started()] + progress;
    EmitAll(store, broker, jobId, ems, now);
    var running := AppendAll(base, ems, now);
    AppendAllEvents(base, ems, now);
    MapUpdateTwice(old(store.jobs), jobId, base, running);
    var mid := broker.queues;
    Conclude(store, broker, jobId, o, now);
    MapUpdateTwice(old(store.jobs), jobId, running, Concluded(running, o, now));
    FannedOutTrans(old(broker.queues), mid, broker.queues, broker.subscribers, jobId,
                   Payloads(NewEvents(n, ems, now)),
                   [EventToDict(JobEvent(n + |progress| + 2, now, "status", TerminalEmission(o).message, TerminalEmission(o).data))]);
    RunPayloads(n, progress, o, now);
  }
}
