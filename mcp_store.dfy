/** The MCP server's in-memory `JobStore`: jobs and artifacts in two
    dictionaries, ids drawn from `uuid4`. The id source is modelled as an
    injective stream of ids and a counter of ids drawn so far, and the clock
    as a parameter of `create_job`. */
module McpStore {
  import opened Basics
  import opened JsonValues
  import opened McpRecords

  /** The record `create_job` stores. */
  function NewJob(id: string, request: Fields, now: Instant): McpJob {
    McpJob(id, now, "pending", request, [], [], None, None)
  }

  /** The record after `update_status`: the status is always set, the
      warnings, token summary and error only when an argument is given. */
  function WithStatus(job: McpJob, status: string, warnings: Option<seq<string>>,
                      tokenSummary: Option<Fields>, error: Option<string>): McpJob
  {
    job.(status := status,
         warnings := if warnings.Some? then warnings.value else job.warnings,
         tokenSummary := if tokenSummary.Some? then tokenSummary else job.tokenSummary,
         error := if error.Some? then error else job.error)
  }

  /** A status change never clears what an earlier one recorded: an error
      or a token summary, once set, stays set; a bare status change touches
      nothing else; and repeating a change changes nothing more. */
  lemma StatusUpdates(job: McpJob, status: string, warnings: Option<seq<string>>,
                      tokenSummary: Option<Fields>, error: Option<string>)
    ensures job.error.Some? ==> WithStatus(job, status, warnings, tokenSummary, error).error.Some?
    ensures job.tokenSummary.Some? ==> WithStatus(job, status, warnings, tokenSummary, error).tokenSummary.Some?
    ensures WithStatus(job, status, None, None, None) == job.(status := status)
    ensures var once := WithStatus(job, status, warnings, tokenSummary, error);
      WithStatus(once, status, warnings, tokenSummary, error) == once
    ensures var r := WithStatus(job, status, warnings, tokenSummary, error);
      r.id == job.id && r.createdAt == job.createdAt && r.request == job.request && r.artifactIds == job.artifactIds
  {
  }

  /** `_require_job` on an unknown id */
  function UnknownJob(jobId: string): McpError {
    McpError(-32000, "Unknown job: " + jobId, [])
  }

  /** `get_artifact` on an unknown id */
  function UnknownArtifact(artifactId: string): McpError {
    McpError(-32001, "Unknown artifact: " + artifactId, [])
  }

  /** Whether jobs are listed newest first. */
  predicate NewestFirstOrder(js: seq<McpJob>) {
    forall i, j :: 0 <= i < j < |js| ==> js[i].createdAt.ticks >= js[j].createdAt.ticks
  }

  /** One job placed into a list sorted newest first, behind every job
      created at the same time or later. */
  function InsertByAge(j: McpJob, s: seq<McpJob>): (r: seq<McpJob>)
    ensures |r| == |s| + 1
    ensures multiset(r) == multiset(s) + multiset{j}
  {
    if s == [] then [j]
    else if s[0].createdAt.ticks >= j.createdAt.ticks then
      assert s == [s[0]] + s[1..];
      [s[0]] + InsertByAge(j, s[1..])
    else [j] + s
  }

  /** `sorted(jobs, key=lambda r: r.created_at, reverse=True)`: the same
      jobs, newest first. */
  function NewestFirst(js: seq<McpJob>): (r: seq<McpJob>)
    ensures |r| == |js|
    ensures multiset(r) == multiset(js)
  {
    if js == [] then []
    else
      assert js == js[..|js| - 1] + [js[|js| - 1]];
      InsertByAge(js[|js| - 1], NewestFirst(js[..|js| - 1]))
  }

  /** Each job is no newer than the one before it. */
  predicate StepsDown(js: seq<McpJob>) {
    forall i :: 0 <= i < |js| - 1 ==> js[i].createdAt.ticks >= js[i + 1].createdAt.ticks
  }

  lemma {:induction false} InsertStepsDown(j: McpJob, s: seq<McpJob>)
    requires StepsDown(s)
    ensures StepsDown(InsertByAge(j, s))
  {
    if s != [] && s[0].createdAt.ticks >= j.createdAt.ticks {
      InsertStepsDown(j, s[1..]);
    }
  }

  lemma {:induction false} StepsDownOrder(js: seq<McpJob>)
    requires StepsDown(js)
    ensures NewestFirstOrder(js)
  {
    if js != [] {
      var tail := js[1..];
      StepsDownOrder(tail);
      forall a, b | 0 <= a < b < |js|
        ensures js[a].createdAt.ticks >= js[b].createdAt.ticks
      {
        if a == 0 && b > 1 {
          assert tail[0].createdAt.ticks >= tail[b - 1].createdAt.ticks;
        }
      }
    }
  }

  /** The listing is sorted newest first and holds exactly the stored
      jobs, each as often as it is stored. */
  lemma NewestFirstSorted(js: seq<McpJob>)
    ensures NewestFirstOrder(NewestFirst(js))
    ensures multiset(NewestFirst(js)) == multiset(js)
  {
    NewestFirstStepsDown(js);
    StepsDownOrder(NewestFirst(js));
  }

  lemma {:induction false} NewestFirstStepsDown(js: seq<McpJob>)
    ensures StepsDown(NewestFirst(js))
  {
    if js != [] {
      NewestFirstStepsDown(js[..|js| - 1]);
      InsertStepsDown(js[|js| - 1], NewestFirst(js[..|js| - 1]));
    }
  }

  /** `jobs[:max(limit, 0)] if limit >= 0 else []` */
  function Limited(js: seq<McpJob>, limit: int): (r: seq<McpJob>)
    ensures |r| == if limit < 0 then 0 else if limit < |js| then limit else |js|
    ensures r == js[..|r|]
  {
    if limit >= 0 then js[..if limit < |js| then limit else |js|] else []
  }

  /** `describe_job` for a stored job, as a JSON value. */
  function Described(store: map<string, Artifact>, job: McpJob): Json {
    JObj(JobDescriptor(job, Present(job.artifactIds, store)))
  }

  /** The descriptors of a list of jobs, in list order. */
  function Descriptions(store: map<string, Artifact>, js: seq<McpJob>): (r: seq<Json>)
    ensures |r| == |js|
  {
    seq(|js|, k requires 0 <= k < |js| => Described(store, js[k]))
  }

  /** Ids never repeat, and the ones not drawn yet are unused. */
  ghost predicate FreshIds(uuids: nat -> string, drawn: nat, jobs: map<string, McpJob>, artifacts: map<string, Artifact>) {
    && (forall i: nat, j: nat :: i != j ==> uuids(i) != uuids(j))
    && (forall k: nat :: drawn <= k ==> uuids(k) !in jobs && uuids(k) !in artifacts)
  }

  /** Every job sits under its own id, and the insertion order lists each
      stored id once. */
  ghost predicate Keyed(jobs: map<string, McpJob>, order: seq<string>) {
    && (forall id :: id in jobs ==> jobs[id].id == id)
    && (forall id :: id in jobs <==> id in order)
    && NoDup(order)
  }

  /** Every artifact sits under its own id and belongs to a stored job, and
      every artifact a job lists is stored and belongs to that job. */
  ghost predicate Linked(jobs: map<string, McpJob>, artifacts: map<string, Artifact>) {
    && (forall a :: a in artifacts ==> artifacts[a].id == a && artifacts[a].jobId in jobs)
    && (forall id, k :: id in jobs && 0 <= k < |jobs[id].artifactIds| ==>
          jobs[id].artifactIds[k] in artifacts && artifacts[jobs[id].artifactIds[k]].jobId == id)
  }

  /** Drawing one id and using it for at most the new entries keeps the
      remaining ids unused. */
  lemma FreshAfterDraw(uuids: nat -> string, drawn: nat, jobs: map<string, McpJob>, artifacts: map<string, Artifact>,
                       jobs': map<string, McpJob>, artifacts': map<string, Artifact>)
    requires FreshIds(uuids, drawn, jobs, artifacts)
    requires forall id :: id in jobs' ==> id in jobs || id == uuids(drawn)
    requires forall id :: id in artifacts' ==> id in artifacts || id == uuids(drawn)
    ensures FreshIds(uuids, drawn + 1, jobs', artifacts')
  {
  }

  /** Registering an artifact under a fresh id for a stored job keeps the
      links between jobs and artifacts. */
  lemma LinkedAfterRegister(jobs: map<string, McpJob>, artifacts: map<string, Artifact>, jobId: string, a: Artifact)
    requires Linked(jobs, artifacts)
    requires jobId in jobs && a.id !in artifacts && a.jobId == jobId
    ensures Linked(jobs[jobId := jobs[jobId].(artifactIds := jobs[jobId].artifactIds + [a.id])], artifacts[a.id := a])
  {
  }

  /** Adding a new job with no artifacts at the end keeps jobs keyed and
      linked. */
  lemma AfterCreate(jobs: map<string, McpJob>, order: seq<string>, artifacts: map<string, Artifact>, job: McpJob)
    requires Keyed(jobs, order) && Linked(jobs, artifacts)
    requires job.id !in jobs && job.artifactIds == []
    ensures Keyed(jobs[job.id := job], order + [job.id])
    ensures Linked(jobs[job.id := job], artifacts)
  {
  }

  /** The contents of a `JobStore` at one moment: how many ids have been
      drawn, the jobs, their insertion order and the artifacts. */
  datatype StoreState = StoreState(drawn: nat, jobs: map<string, McpJob>, order: seq<string>,
                                   artifacts: map<string, Artifact>)

  /** The jobs `order` names that `jobs` holds, in that order. */
  function Listed(jobs: map<string, McpJob>, order: seq<string>): seq<McpJob> {
    if order == [] then []
    else (if order[0] in jobs then [jobs[order[0]]] else []) + Listed(jobs, order[1..])
  }

  /** When every listed id is stored, `Listed` holds one job per id, in
      order. */
  lemma {:induction false} ListedAll(jobs: map<string, McpJob>, order: seq<string>)
    requires forall k :: 0 <= k < |order| ==> order[k] in jobs
    ensures |Listed(jobs, order)| == |order|
    ensures forall k :: 0 <= k < |order| ==> Listed(jobs, order)[k] == jobs[order[k]]
  {
    if order != [] {
      ListedAll(jobs, order[1..]);
      forall k | 0 <= k < |order| ensures Listed(jobs, order)[k] == jobs[order[k]] {
        if k > 0 {
          assert order[1..][k - 1] == order[k];
        }
      }
    }
  }

  class JobStore {
    /** The ids `uuid4().hex` hands out, in order. */
    const uuids: nat -> string
    /** How many ids have been drawn. */
    var drawn: nat
    /** `_jobs` */
    var jobs: map<string, McpJob>
    /** The keys of `_jobs` in insertion order. */
    var order: seq<string>
    /** `_artifacts` */
    var artifacts: map<string, Artifact>

    /** Ids never repeat and the ones not yet drawn are unused; every
        record sits under its own id, in insertion order once; every
        artifact belongs to a stored job, and every artifact a job lists is
        stored and belongs to it. */
    ghost predicate Valid()
      reads this
    {
      FreshIds(uuids, drawn, jobs, artifacts) && Keyed(jobs, order) && Linked(jobs, artifacts)
    }

    /** `JobStore()`: empty. */
    constructor(uuids: nat -> string)
      requires forall i: nat, j: nat :: i != j ==> uuids(i) != uuids(j)
      ensures Valid()
      ensures this.uuids == uuids && drawn == 0
      ensures jobs == map[] && order == [] && artifacts == map[]
    {
      this.uuids := uuids;
      drawn := 0;
      jobs := map[];
      order := [];
      artifacts := map[];
    }

    /** The stored jobs in insertion order (`self._jobs.values()`). */
    function Jobs(): (js: seq<McpJob>)
      reads this
      requires Valid()
      ensures |js| == |order|
      ensures forall k :: 0 <= k < |js| ==> js[k] == jobs[order[k]] && js[k].id == order[k]
    {
      var ids := order;
      var m := jobs;
      seq(|ids|, k requires 0 <= k < |ids| => m[ids[k]])
    }

    /** The store's contents as a value. */
    function State(): StoreState
      reads this
    {
      StoreState(drawn, jobs, order, artifacts)
    }

    /** `Jobs()` is the stored jobs `Listed` in insertion order. */
    lemma JobsListed()
      requires Valid()
      ensures Jobs() == Listed(jobs, order)
    {
      ListedAll(jobs, order);
    }

    /** `create_job`: a pending record with no warnings, artifacts, token
        summary or error, stored under a fresh id at the end of the
        insertion order. */
    method CreateJob(request: Fields, now: Instant) returns (job: McpJob)
      requires Valid()
      modifies this
      ensures Valid()
      ensures job == NewJob(uuids(old(drawn)), request, now)
      ensures job.id !in old(jobs)
      ensures jobs == old(jobs)[job.id := job]
      ensures order == old(order) + [job.id]
      ensures artifacts == old(artifacts) && drawn == old(drawn) + 1
    {
      var id := uuids(drawn);
      job := NewJob(id, request, now);
      AfterCreate(jobs, order, artifacts, job);
      FreshAfterDraw(uuids, drawn, jobs, artifacts, jobs[id := job], artifacts);
      jobs := jobs[id := job];
      order := order + [id];
      drawn := drawn + 1;
    }

    /** `update_status`: -32000 and no change for an unknown job; otherwise
        only that job's record changes, as `WithStatus` says. */
    method UpdateStatus(jobId: string, status: string, warnings: Option<seq<string>>,
                        tokenSummary: Option<Fields>, error: Option<string>)
      returns (r: Result<McpJob, McpError>)
      requires Valid()
      modifies this
      ensures Valid()
      ensures jobId !in old(jobs) ==> r == Err(UnknownJob(jobId)) && unchanged(this)
      ensures jobId in old(jobs) ==>
        && r == Ok(WithStatus(old(jobs)[jobId], status, warnings, tokenSummary, error))
        && jobs == old(jobs)[jobId := r.value]
        && order == old(order) && artifacts == old(artifacts) && drawn == old(drawn)
    {
      if jobId !in jobs {
        return Err(UnknownJob(jobId));
      }
      var job := WithStatus(jobs[jobId], status, warnings, tokenSummary, error);
      jobs := jobs[jobId := job];
      r := Ok(job);
    }

    /** `register_artifact`: -32000 and no change for an unknown job;
        otherwise the artifact is stored under a fresh id, belongs to the
        job, and its id is appended to the job's artifact list. */
    method RegisterArtifact(jobId: string, name: string, mimeType: string, content: string,
                            description: Option<string>, metadata: Option<Fields>)
      returns (r: Result<Artifact, McpError>)
      requires Valid()
      modifies this
      ensures Valid()
      ensures jobId !in old(jobs) ==> r == Err(UnknownJob(jobId)) && unchanged(this)
      ensures jobId in old(jobs) ==>
        && r == Ok(Artifact(uuids(old(drawn)), jobId, name, mimeType, content, description, metadata.GetOr([])))
        && r.value.id !in old(artifacts)
        && artifacts == old(artifacts)[r.value.id := r.value]
        && jobs == old(jobs)[jobId := old(jobs)[jobId].(artifactIds := old(jobs)[jobId].artifactIds + [r.value.id])]
        && order == old(order) && drawn == old(drawn) + 1
    {
      if jobId !in jobs {
        return Err(UnknownJob(jobId));
      }
      var job := jobs[jobId];
      var id := uuids(drawn);
      var a := Artifact(id, job.id, name, mimeType, content, description, metadata.GetOr([]));
      LinkedAfterRegister(jobs, artifacts, jobId, a);
      FreshAfterDraw(uuids, drawn, jobs, artifacts, jobs[jobId := job.(artifactIds := job.artifactIds + [id])], artifacts[id := a]);
      artifacts := artifacts[id := a];
      jobs := jobs[jobId := job.(artifactIds := job.artifactIds + [id])];
      drawn := drawn + 1;
      r := Ok(a);
    }

    /** `describe_job`: -32000 for an unknown job; otherwise the job's
        descriptor, whose artifacts are the descriptors of every artifact
        the job lists, in the order it lists them. */
    method DescribeJob(jobId: string) returns (r: Result<Fields, McpError>)
      requires Valid()
      ensures jobId !in jobs ==> r == Err(UnknownJob(jobId))
      ensures jobId in jobs ==>
        && r == Ok(JobDescriptor(jobs[jobId], Present(jobs[jobId].artifactIds, artifacts)))
        && r.value == JobFields(jobs[jobId], LinkedDescriptors(artifacts, jobs[jobId].artifactIds))
        && |LinkedDescriptors(artifacts, jobs[jobId].artifactIds)| == |jobs[jobId].artifactIds|
        && forall k :: 0 <= k < |jobs[jobId].artifactIds| ==>
             LinkedDescriptors(artifacts, jobs[jobId].artifactIds)[k] == JObj(Descriptor(artifacts[jobs[jobId].artifactIds[k]]))
    {
      if jobId !in jobs {
        return Err(UnknownJob(jobId));
      }
      var job := jobs[jobId];
      var present := Present(job.artifactIds, artifacts);
      r := Ok(JobDescriptor(job, present));
      DescribeFromStore(job, artifacts);
      LinkedAll(artifacts, job.artifactIds);
    }

    /** `get_artifact`: the stored artifact, or -32001 for an unknown id. */
    method GetArtifact(artifactId: string) returns (r: Result<Artifact, McpError>)
      requires Valid()
      ensures artifactId in artifacts ==> r == Ok(artifacts[artifactId]) && r.value.id == artifactId
      ensures artifactId !in artifacts ==> r == Err(UnknownArtifact(artifactId))
    {
      if artifactId in artifacts {
        r := Ok(artifacts[artifactId]);
      } else {
        r := Err(UnknownArtifact(artifactId));
      }
    }

    /** `list_jobs(limit)`: the descriptors of the newest `limit` jobs,
        newest first; none for a negative limit. */
    method ListJobs(limit: int) returns (r: seq<Json>)
      requires Valid()
      ensures r == Descriptions(artifacts, Limited(NewestFirst(Jobs()), limit))
    {
      var sorted := NewestFirst(Jobs());
      var listed := Limited(sorted, limit);
      r := [];
      var i := 0;
      while i < |listed|
        invariant 0 <= i <= |listed|
        invariant |r| == i
        invariant forall k :: 0 <= k < i ==> r[k] == Described(artifacts, listed[k])
      {
        StoredJob(sorted, listed, i);
        var d := DescribeStored(listed[i]);
        r := r + [d];
        i := i + 1;
      }
      assert r == Descriptions(artifacts, listed);
    }

    /** `describe_job(job.id)` for a stored job. */
    method DescribeStored(job: McpJob) returns (d: Json)
      requires Valid() && job.id in jobs && jobs[job.id] == job
      ensures d == Described(artifacts, job)
    {
      var r := DescribeJob(job.id);
      d := JObj(r.value);
    }

    /** A listed job is the record stored under its id. */
    lemma StoredJob(sorted: seq<McpJob>, listed: seq<McpJob>, i: nat)
      requires Valid()
      requires sorted == NewestFirst(Jobs()) && |listed| <= |sorted| && listed == sorted[..|listed|] && i < |listed|
      ensures listed[i].id in jobs && jobs[listed[i].id] == listed[i]
    {
      assert listed[i] in multiset(sorted);
      var k :| 0 <= k < |Jobs()| && Jobs()[k] == listed[i];
    }
  }

  /** The listing `list_jobs` returns: as many jobs as the limit allows
      (none for a negative one), newest first, each a stored job, and the
      newest ones: no job left out is newer than one listed. */
  lemma ListingSpec(js: seq<McpJob>, limit: int)
    ensures |Limited(NewestFirst(js), limit)| == if limit < 0 then 0 else if limit < |js| then limit else |js|
    ensures NewestFirstOrder(Limited(NewestFirst(js), limit))
    ensures forall x :: x in Limited(NewestFirst(js), limit) ==> x in js
    ensures forall i, j :: 0 <= i < |Limited(NewestFirst(js), limit)| <= j < |js| ==>
      Limited(NewestFirst(js), limit)[i].createdAt.ticks >= NewestFirst(js)[j].createdAt.ticks
  {
    var sorted := NewestFirst(js);
    NewestFirstSorted(js);
    forall x | x in Limited(sorted, limit)
      ensures x in js
    {
      assert x in multiset(sorted);
    }
  }
}
