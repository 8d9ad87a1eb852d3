/** `MCPServer`: the JSON-RPC router of the MCP integration and the tools
    it runs against its job store. Preparing and snapshotting a repository
    (resolving a local path or cloning with the token applied, then
    `collect_repo_snapshot`) is the parameter `collect`, a function from
    what the server asks for to how the work ended; the clock is a
    parameter of every request. */
module McpServer {
  import opened Basics
  import opened JsonValues
  import opened ServiceFilter
  import opened ServiceChunks
  import opened ApiRequests
  import opened McpRecords
  import opened McpStore
  import opened McpTools

  /** The artifact `_store_snapshot_artifacts` registers for the
      repository map. */
  function RepoMapArtifact(id: string, jobId: string, s: RepoSnapshot): Artifact {
    Artifact(id, jobId, "repo-map", "text/markdown", s.repoMapText, Some("Consolidated repository structure"), [])
  }

  /** The repository map's artifact under the `base`-th drawn id. */
  function RepoMapAt(uuids: nat -> string, base: nat, jobId: string, s: RepoSnapshot): (a: Artifact)
    ensures a.id == uuids(base)
  {
    RepoMapArtifact(uuids(base), jobId, s)
  }

  /** The artifact `_store_snapshot_artifacts` registers for one chunk. */
  function ChunkArtifact(id: string, jobId: string, c: Chunk): Artifact {
    Artifact(id, jobId, ChunkName(c.index), "text/markdown", c.content, None,
             [("tokenCount", JInt(c.tokenCount)), ("fileCount", JInt(c.fileCount))])
  }

  /** The artifacts the chunks are stored as, in chunk order, with the
      ids drawn from the `base`-th on. */
  function ChunkArtifacts(uuids: nat -> string, base: nat, jobId: string, chunks: seq<Chunk>): (r: seq<Artifact>)
    ensures |r| == |chunks|
  {
    seq(|chunks|, k requires 0 <= k < |chunks| => ChunkArtifact(uuids(base + k), jobId, chunks[k]))
  }

  /** The artifacts a snapshot is stored as: the repository map, then the
      chunks. */
  function SnapshotArtifacts(uuids: nat -> string, base: nat, jobId: string, s: RepoSnapshot): (r: seq<Artifact>)
    ensures |r| == 1 + |s.chunks|
  {
    [RepoMapAt(uuids, base, jobId, s)] + ChunkArtifacts(uuids, base + 1, jobId, s.chunks)
  }

  function Ids(arts: seq<Artifact>): (r: seq<string>)
    ensures |r| == |arts| && forall k :: 0 <= k < |arts| ==> r[k] == arts[k].id
  {
    seq(|arts|, k requires 0 <= k < |arts| => arts[k].id)
  }

  function DescriptorsOf(arts: seq<Artifact>): (r: seq<Json>)
    ensures |r| == |arts| && forall k :: 0 <= k < |arts| ==> r[k] == JObj(Descriptor(arts[k]))
  {
    seq(|arts|, k requires 0 <= k < |arts| => JObj(Descriptor(arts[k])))
  }

  /** The artifact table after registering each artifact of a list in
      turn. */
  function Registered(m: map<string, Artifact>, arts: seq<Artifact>): map<string, Artifact> {
    if arts == [] then m
    else Registered(m, arts[..|arts| - 1])[arts[|arts| - 1].id := arts[|arts| - 1]]
  }

  /** A snapshot is stored as one artifact for the repository map and then
      one per chunk, in chunk order, each under a fresh id, belonging to
      the job, and named `repo-map` or `chunk-NNNN` after the chunk's
      index. */
  lemma SnapshotLayout(uuids: nat -> string, base: nat, jobId: string, s: RepoSnapshot)
    requires forall i: nat, j: nat :: i != j ==> uuids(i) != uuids(j)
    ensures var arts := SnapshotArtifacts(uuids, base, jobId, s);
      && arts[0].name == "repo-map" && arts[0].content == s.repoMapText
      && (forall k :: 0 <= k < |s.chunks| ==>
            arts[1 + k].name == ChunkName(s.chunks[k].index) && arts[1 + k].content == s.chunks[k].content)
      && (forall k :: 0 <= k < |arts| ==> arts[k].jobId == jobId && arts[k].id == uuids(base + k))
      && NoDup(Ids(arts))
  {
    var arts := SnapshotArtifacts(uuids, base, jobId, s);
    forall k | 0 <= k < |arts| ensures arts[k].id == uuids(base + k) {
      if k > 0 {
        assert arts[k] == ChunkArtifact(uuids(base + 1 + (k - 1)), jobId, s.chunks[k - 1]);
      }
    }
  }

  /** Registering artifacts with distinct ids leaves each one stored under
      its id. */
  lemma {:induction false} RegisteredHolds(m: map<string, Artifact>, arts: seq<Artifact>, k: nat)
    requires NoDup(Ids(arts)) && k < |arts|
    ensures arts[k].id in Registered(m, arts) && Registered(m, arts)[arts[k].id] == arts[k]
  {
    var init := arts[..|arts| - 1];
    if k < |arts| - 1 {
      assert Ids(init) == Ids(arts)[..|arts| - 1];
      assert Ids(arts)[k] != Ids(arts)[|arts| - 1];
      RegisteredHolds(m, init, k);
    }
  }

  /** The register step of the storing loop, one prefix longer. */
  lemma RegisterStep(m: map<string, Artifact>, arts: seq<Artifact>, n: nat)
    requires n < |arts|
    ensures Registered(m, arts[..n + 1]) == Registered(m, arts[..n])[arts[n].id := arts[n]]
    ensures DescriptorsOf(arts[..n + 1]) == DescriptorsOf(arts[..n]) + [JObj(Descriptor(arts[n]))]
    ensures Ids(arts[..n + 1]) == Ids(arts[..n]) + [arts[n].id]
  {
    assert arts[..n + 1][..n] == arts[..n];
  }

  /** The job table once more artifact ids are appended to one job. */
  function Attach(jobs: map<string, McpJob>, jobId: string, ids: seq<string>): (r: map<string, McpJob>)
    requires jobId in jobs
    ensures jobId in r && r.Keys == jobs.Keys
  {
    jobs[jobId := jobs[jobId].(artifactIds := jobs[jobId].artifactIds + ids)]
  }

  lemma AttachTwice(jobs: map<string, McpJob>, jobId: string, first: seq<string>, second: seq<string>)
    requires jobId in jobs
    ensures Attach(Attach(jobs, jobId, first), jobId, second) == Attach(jobs, jobId, first + second)
  {
    ConcatAssoc(jobs[jobId].artifactIds, first, second);
  }

  lemma AttachNothing(jobs: map<string, McpJob>, jobId: string)
    requires jobId in jobs
    ensures Attach(jobs, jobId, []) == jobs
  {
    assert jobs[jobId].artifactIds + [] == jobs[jobId].artifactIds;
  }

  /** Registering the `i`-th artifact extends each prefix by one. */
  lemma PrefixStep(arts: seq<Artifact>, table: map<string, Artifact>, jobs: map<string, McpJob>, jobId: string, i: nat)
    requires jobId in jobs && i < |arts|
    ensures Registered(table, arts[..i + 1]) == Registered(table, arts[..i])[arts[i].id := arts[i]]
    ensures DescriptorsOf(arts[..i + 1]) == DescriptorsOf(arts[..i]) + [JObj(Descriptor(arts[i]))]
    ensures Attach(jobs, jobId, Ids(arts[..i + 1])) == Attach(Attach(jobs, jobId, Ids(arts[..i])), jobId, [arts[i].id])
  {
    RegisterStep(table, arts, i);
    AttachTwice(jobs, jobId, Ids(arts[..i]), [arts[i].id]);
  }

  /** Registering one artifact and then a list is registering the list
      with the artifact in front. */
  lemma {:induction false} RegisteredFront(m: map<string, Artifact>, a: Artifact, rest: seq<Artifact>)
    ensures Registered(m[a.id := a], rest) == Registered(m, [a] + rest)
  {
    if rest != [] {
      var init := rest[..|rest| - 1];
      assert ([a] + rest)[..|[a] + rest| - 1] == [a] + init;
      RegisteredFront(m, a, init);
    } else {
      assert Registered(m, [a]) == Registered(m, [a][..0])[a.id := a];
      assert [a][..0] == [];
    }
  }

  /** What storing the repository map and then the chunks amounts to. */
  lemma FrontThenChunks(m: map<string, Artifact>, jobs: map<string, McpJob>, jobId: string, a: Artifact, rest: seq<Artifact>)
    requires jobId in jobs
    ensures Registered(m[a.id := a], rest) == Registered(m, [a] + rest)
    ensures [JObj(Descriptor(a))] + DescriptorsOf(rest) == DescriptorsOf([a] + rest)
    ensures Attach(Attach(jobs, jobId, [a.id]), jobId, Ids(rest)) == Attach(jobs, jobId, Ids([a] + rest))
  {
    RegisteredFront(m, a, rest);
    AttachTwice(jobs, jobId, [a.id], Ids(rest));
    assert [a.id] + Ids(rest) == Ids([a] + rest);
  }

  /** Once a snapshot's artifacts are registered, looking the job's new
      ids up in the artifact table gives back the descriptors of those
      artifacts, in registration order. */
  lemma StoredDescriptors(uuids: nat -> string, base: nat, jobId: string, s: RepoSnapshot,
                          m: map<string, Artifact>)
    requires forall i: nat, j: nat :: i != j ==> uuids(i) != uuids(j)
    ensures var arts := SnapshotArtifacts(uuids, base, jobId, s);
      LinkedDescriptors(Registered(m, arts), Ids(arts)) == DescriptorsOf(arts)
  {
    var arts := SnapshotArtifacts(uuids, base, jobId, s);
    var table := Registered(m, arts);
    var ids := Ids(arts);
    SnapshotLayout(uuids, base, jobId, s);
    forall k | 0 <= k < |ids|
      ensures ids[k] in table && table[ids[k]] == arts[k]
    {
      RegisteredHolds(m, arts, k);
    }
    LinkedAll(table, ids);
  }

  /** `payload[key] = value`: the entry under `key` gets the new value in
      its place, or a new entry goes at the end. */
  function Assign(d: Fields, key: string, value: Json): (r: Fields)
    ensures Get(r, key) == Some(value)
    ensures Keys(d) == Keys(r) || Keys(r) == Keys(d) + [key]
  {
    if d == [] then [(key, value)]
    else if d[0].0 == key then [(key, value)] + d[1..]
    else
      var rest := Assign(d[1..], key, value);
      assert Keys([d[0]] + rest) == [d[0].0] + Keys(rest);
      assert Keys(d) == [d[0].0] + Keys(d[1..]);
      [d[0]] + rest
  }

  /** Replacing the artifact list of a job descriptor gives the
      descriptor of the same job around the new list. */
  lemma AssignArtifacts(job: McpJob, before: seq<Json>, after: seq<Json>)
    ensures Assign(JobFields(job, before), "artifacts", JArr(after)) == JobFields(job, after)
  {
    var d := JobFields(job, before);
    assert d[0].0 != "artifacts" && d[1].0 != "artifacts" && d[2].0 != "artifacts";
    assert d[3].0 != "artifacts" && d[4].0 != "artifacts" && d[5].0 != "artifacts";
    assert d[6..] == [("artifacts", JArr(before))];
    assert Assign(d[6..], "artifacts", JArr(after)) == [("artifacts", JArr(after))];
    assert Assign(d[5..], "artifacts", JArr(after)) == [d[5]] + Assign(d[6..], "artifacts", JArr(after));
    assert Assign(d[4..], "artifacts", JArr(after)) == [d[4]] + Assign(d[5..], "artifacts", JArr(after));
    assert Assign(d[3..], "artifacts", JArr(after)) == [d[3]] + Assign(d[4..], "artifacts", JArr(after));
    assert Assign(d[2..], "artifacts", JArr(after)) == [d[2]] + Assign(d[3..], "artifacts", JArr(after));
    assert Assign(d[1..], "artifacts", JArr(after)) == [d[1]] + Assign(d[2..], "artifacts", JArr(after));
  }

  /** The request a processed job records. */
  function JobRequest(p: ProcessArgs): Fields {
    [("repository", p.repository), ("ref", p.ref)]
  }

  /** What the server asks the preparation and collection steps for. */
  function Collecting(p: ProcessArgs): CollectRequest {
    CollectRequest(p.repository, p.ref, p.githubPat,
                   McpOptions(Defaults(), p.ignorePatterns, p.includePatterns, p.allowedExtensions, p.allowNonCode, p.maxFileBytes),
                   p.chunkTokenLimit)
  }

  /** A processed job once it is running. */
  function Started(id: string, p: ProcessArgs, now: Instant): McpJob {
    WithStatus(NewJob(id, JobRequest(p), now), "running", None, None, None)
  }

  /** The record `_tool_process_repo` leaves: completed with the
      snapshot's warnings, token summary and artifacts, or failed with the
      error's text. */
  function Finished(job: McpJob, work: Work, ids: seq<string>): McpJob {
    match work
    case Prepared(s) => WithStatus(job.(artifactIds := job.artifactIds + ids), "completed", Some(s.warnings), Some(TokenSummary(s)), None)
    case CloneError(message) => WithStatus(job, "failed", None, None, Some(message))
    case OtherError(message) => WithStatus(job, "failed", None, None, Some(message))
  }

  /** A processed job goes from pending to running, and then to completed
      with no error when the work produced a snapshot, or to failed with
      the error's text recorded; it keeps its id, creation time and
      request throughout. */
  lemma Lifecycle(id: string, p: ProcessArgs, now: Instant, work: Work, ids: seq<string>)
    ensures NewJob(id, JobRequest(p), now).status == "pending"
    ensures Started(id, p, now).status == "running"
    ensures var done := Finished(Started(id, p, now), work, ids);
      && done.status == (if work.Prepared? then "completed" else "failed")
      && (work.Prepared? ==> done.error.None? && done.tokenSummary == Some(TokenSummary(work.snapshot))
                             && done.warnings == work.snapshot.warnings && done.artifactIds == ids)
      && (!work.Prepared? ==> done.error == Some(work.message) && done.artifactIds == [])
      && done.id == id && done.createdAt == now && done.request == JobRequest(p)
  {
  }

  /** The error a failed preparation raises: -32010 for a git failure,
      -32603 with the text as details for anything else. */
  function WorkError(work: Work): McpError
    requires !work.Prepared?
  {
    if work.CloneError? then CloneFailed(work.message) else ProcessingFailed(work.message)
  }

  /** `{"tool": name, "result": result}` around a tool's outcome. */
  function ToolReply(name: Json, o: Outcome<Fields>): (r: Outcome<Fields>)
    ensures r.Done? <==> o.Done?
    ensures !o.Done? ==> r == o
  {
    if o.Done? then Done([("tool", name), ("result", JObj(o.value))]) else o
  }

  /** What `listRecentJobs` answers: the descriptors of the newest jobs up
      to the clamped limit. */
  function RecentJobs(args: Fields, jobs: seq<McpJob>, artifacts: map<string, Artifact>): Outcome<Fields> {
    match RecentLimit(args)
    case Done(limit) => Done([("jobs", JArr(Descriptions(artifacts, Limited(NewestFirst(jobs), limit))))])
    case Raised(e) => Raised(e)
    case Crashed => Crashed
  }

  /** `listRecentJobs` lists at least one job when any is stored and never
      more than fifty, newest first, and the ones it leaves out are no
      newer than the ones it lists. */
  lemma RecentJobsBounds(args: Fields, jobs: seq<McpJob>, artifacts: map<string, Artifact>)
    requires RecentLimit(args).Done?
    ensures var listed := Limited(NewestFirst(jobs), RecentLimit(args).value);
      && (jobs != [] ==> |listed| >= 1)
      && |listed| <= 50 && |listed| <= |jobs|
      && NewestFirstOrder(listed)
      && (forall x :: x in listed ==> x in jobs)
      && RecentJobs(args, jobs, artifacts) == Done([("jobs", JArr(Descriptions(artifacts, listed)))])
  {
    ListingSpec(jobs, RecentLimit(args).value);
  }

  /** What `getArtifact` answers, given the stored artifacts. */
  function ArtifactAnswer(args: Fields, artifacts: map<string, Artifact>): Outcome<Fields> {
    var v := Arg(args, "artifactId");
    if !Truthy(v) then Raised(InvalidParams("'artifactId' is required"))
    else if v.JArr? || v.JObj? then Crashed
    else if v.JStr? && v.s in artifacts then Done([("artifact", JObj(Payload(artifacts[v.s])))])
    else Raised(UnknownArtifact(PyStr(v)))
  }

  /** `getArtifact` answers with an artifact's payload exactly when the id
      names a stored artifact, and the payload is that artifact's, content
      included. */
  lemma ArtifactAnswerSpec(args: Fields, artifacts: map<string, Artifact>)
    requires forall a :: a in artifacts ==> artifacts[a].id == a
    ensures ArtifactAnswer(args, artifacts).Done? <==>
      Arg(args, "artifactId").JStr? && Arg(args, "artifactId").s != "" && Arg(args, "artifactId").s in artifacts
    ensures ArtifactAnswer(args, artifacts).Done? ==>
      var a := artifacts[Arg(args, "artifactId").s];
      && a.id == Arg(args, "artifactId").s
      && ArtifactAnswer(args, artifacts).value == [("artifact", JObj(Payload(a)))]
      && Get(Payload(a), "content") == Some(JStr(a.content))
    ensures ArtifactAnswer(args, artifacts).Raised? ==> ArtifactAnswer(args, artifacts).error.code in {-32602, -32001}
  {
    var v := Arg(args, "artifactId");
    if v.JStr? && v.s in artifacts {
      PayloadShape(artifacts[v.s], "content");
    }
  }

  /** A JSON-RPC 2.0 request for `callTool`, the one method that reaches
      the job store. */
  predicate CallsTool(request: Fields) {
    Get(request, "jsonrpc") == Some(JStr(JsonRpcVersion)) && Arg(request, "method") == JStr("callTool")
  }

  /** The answer of `_handle_single` to any request but a `callTool`,
      given the server's description and its tool list: -32600 when
      `jsonrpc` is not "2.0", then the method's handler, and -32601 for a
      method it does not know. */
  function Routed(request: Fields, description: Fields, tools: Fields): Outcome<Fields>
    requires !CallsTool(request)
  {
    if Get(request, "jsonrpc") != Some(JStr(JsonRpcVersion)) then Raised(InvalidVersion())
    else
      var requested := Arg(request, "method");
      if requested == JStr("initialize") then Done(description)
      else if requested == JStr("listTools") then Done(tools)
      else Raised(MethodNotFound(requested))
  }

  /** `Routed` with this server's own description and tool list. */
  function Answered(request: Fields, config: McpConfig, docs: ToolDocs): Outcome<Fields>
    requires !CallsTool(request)
  {
    Routed(request, Initialize(config), ToolList(docs))
  }

  /** Apart from `callTool`, a request is answered with the server's
      description, the tool list or an error; the version is checked
      first, and the error codes are the JSON-RPC 2.0 ones of section
      5.1. */
  lemma RoutedSpec(request: Fields, description: Fields, tools: Fields)
    requires !CallsTool(request)
    ensures !Routed(request, description, tools).Crashed?
    ensures Get(request, "jsonrpc") != Some(JStr("2.0")) ==> Routed(request, description, tools) == Raised(InvalidVersion())
    ensures Routed(request, description, tools).Raised? ==> Routed(request, description, tools).error.code in {-32600, -32601}
    ensures Routed(request, description, tools).Done? <==>
      Get(request, "jsonrpc") == Some(JStr("2.0")) && Arg(request, "method") in {JStr("initialize"), JStr("listTools")}
    ensures Routed(request, description, tools).Done? ==>
      Routed(request, description, tools).value == (if Arg(request, "method") == JStr("initialize") then description else tools)
  {
  }

  /** `params.get("arguments") or {}` */
  function ToolArguments(params: Fields): Json {
    var args := Arg(params, "arguments");
    if Truthy(args) then args else JObj([])
  }

  predicate ProcessesRepo(params: Fields) {
    Arg(params, "name") == JStr("processRepo")
  }

  /** What `_handle_call_tool` answers for any tool but `processRepo`,
      given the stored jobs and artifacts. Arguments that are not an
      object make the tool crash on `arguments.get`. */
  function ReadOnlyCall(params: Fields, jobs: seq<McpJob>, artifacts: map<string, Artifact>): Outcome<Fields>
    requires !ProcessesRepo(params)
  {
    var name := Arg(params, "name");
    var arguments := ToolArguments(params);
    if !Truthy(name) then Raised(InvalidParams("Tool name is required"))
    else if name == JStr("listRecentJobs") then
      if arguments.JObj? then ToolReply(name, RecentJobs(arguments.fields, jobs, artifacts)) else Crashed
    else if name == JStr("getArtifact") then
      if arguments.JObj? then ToolReply(name, ArtifactAnswer(arguments.fields, artifacts)) else Crashed
    else Raised(UnknownTool(name))
  }

  /** Only the advertised tools answer; any other name is -32601, a
      missing one -32602, and an answer carries the tool's name next to
      its result. */
  lemma ReadOnlyCallSpec(params: Fields, jobs: seq<McpJob>, artifacts: map<string, Artifact>)
    requires !ProcessesRepo(params)
    ensures var o := ReadOnlyCall(params, jobs, artifacts);
      var name := Arg(params, "name");
      && (o.Done? ==> name.JStr? && name.s in ToolNames && |o.value| == 2 && o.value[0] == ("tool", name))
      && (Truthy(name) && !(name.JStr? && name.s in ToolNames) ==> o == Raised(UnknownTool(name)))
      && (o.Raised? ==> o.error.code in {-32602, -32601, -32001})
  {
    var name := Arg(params, "name");
    var arguments := ToolArguments(params);
    if Truthy(name) && arguments.JObj? && name == JStr("getArtifact") {
      ArtifactAnswerCodes(arguments.fields, artifacts);
    }
  }

  lemma ArtifactAnswerCodes(args: Fields, artifacts: map<string, Artifact>)
    ensures ArtifactAnswer(args, artifacts).Raised? ==> ArtifactAnswer(args, artifacts).error.code in {-32602, -32001}
  {
  }

  /** `request.get("params") or {}` of a `callTool` request. */
  function ToolParams(request: Fields): Json {
    var params := Arg(request, "params");
    if Truthy(params) then params else JObj([])
  }

  /** A `callTool` request whose parameters name `processRepo`: the only
      request that can change the store. */
  predicate RunsProcessRepo(request: Json) {
    request.JObj? && CallsTool(request.fields)
    && ToolParams(request.fields).JObj? && ProcessesRepo(ToolParams(request.fields).fields)
  }

  /** What a server is built with: its settings, the tool descriptions
      `listTools` gives, its id source and its preparation step. */
  datatype ServerSetup = ServerSetup(config: McpConfig, docs: ToolDocs, uuids: nat -> string,
                                     collect: CollectRequest -> Work)

  /** `_tool_process_repo(arguments)` on the store `s`: the answer and the
      store it leaves. Failed argument checks change nothing. */
  function ProcessRepoStep(args: Fields, setup: ServerSetup, s: StoreState, now: Instant): (Outcome<Fields>, StoreState)
  {
    var parsed := ParseProcessArgs(args, setup.config);
    if parsed.Raised? then (Raised(parsed.error), s)
    else if parsed.Crashed? then (Crashed, s)
    else ParsedStep(parsed.value, setup, s, now)
  }

  /** The store once `create_job` and `update_status(job_id, "running")`
      have put `job` under the next id, `id`. */
  function Begun(s: StoreState, id: string, job: McpJob): StoreState {
    StoreState(s.drawn + 1, s.jobs[id := job], s.order + [id], s.artifacts)
  }

  /** The `try` block of `_tool_process_repo` on the store `t`, where
      `job` is running under `id`: when the work produced a snapshot its
      artifacts are registered under the next ids and the job completes
      with them; otherwise the job fails with the error's text and the
      answer is the error the failure maps to. */
  function RunStep(id: string, job: McpJob, uuids: nat -> string, t: StoreState, work: Work): (Outcome<Fields>, StoreState)
  {
    var arts := if work.Prepared? then SnapshotArtifacts(uuids, t.drawn, id, work.snapshot) else [];
    var done := Finished(job, work, Ids(arts));
    (if work.Prepared? then Done(JobFields(done, DescriptorsOf(arts))) else Raised(WorkError(work)),
     StoreState(t.drawn + |arts|, t.jobs[id := done], t.order, Registered(t.artifacts, arts)))
  }

  /** The store a job begun and then run leaves, field by field: the
      job sits under the next id, at the end of the insertion order, as
      `Finished` leaves it, and the snapshot's artifacts are registered
      under the ids after the job's. */
  lemma BegunThenRun(id: string, job: McpJob, uuids: nat -> string, s: StoreState, work: Work)
    ensures var arts := if work.Prepared? then SnapshotArtifacts(uuids, s.drawn + 1, id, work.snapshot) else [];
      var t := RunStep(id, job, uuids, Begun(s, id, job), work).1;
      && t.jobs == s.jobs[id := Finished(job, work, Ids(arts))]
      && t.order == s.order + [id]
      && t.artifacts == Registered(s.artifacts, arts)
      && t.drawn == s.drawn + 1 + |arts|
  {
    var b := Begun(s, id, job);
    if work.Prepared? {
      var arts := SnapshotArtifacts(uuids, s.drawn + 1, id, work.snapshot);
      RunStepStore(id, job, uuids, b, work, arts);
      MapUpdateTwice(s.jobs, id, job, Finished(job, work, Ids(arts)));
    } else {
      RunStepStore(id, job, uuids, b, work, []);
      MapUpdateTwice(s.jobs, id, job, Finished(job, work, Ids([])));
    }
  }

  /** `RunStep`'s store on any store `t`, for the artifacts `arts` it registers. */
  lemma RunStepStore(id: string, job: McpJob, uuids: nat -> string, t: StoreState, work: Work, arts: seq<Artifact>)
    requires arts == if work.Prepared? then SnapshotArtifacts(uuids, t.drawn, id, work.snapshot) else []
    ensures RunStep(id, job, uuids, t, work).1
      == StoreState(t.drawn + |arts|, t.jobs[id := Finished(job, work, Ids(arts))], t.order, Registered(t.artifacts, arts))
  {
  }

  /** The answer of a job begun and then run: the finished job's
      descriptor with its artifacts' descriptors, or the error the failure
      maps to, -32010 for a git failure and -32603 otherwise. */
  lemma RunAnswer(id: string, job: McpJob, uuids: nat -> string, s: StoreState, work: Work)
    ensures var arts := if work.Prepared? then SnapshotArtifacts(uuids, s.drawn + 1, id, work.snapshot) else [];
      var o := RunStep(id, job, uuids, Begun(s, id, job), work).0;
      && (work.Prepared? ==> o == Done(JobFields(Finished(job, work, Ids(arts)), DescriptorsOf(arts))))
      && (work.CloneError? ==> o == Raised(McpError(-32010, "Failed to prepare repository: " + work.message, [])))
      && (work.OtherError? ==>
            o == Raised(McpError(-32603, "Failed to process repository", [("details", JStr(work.message))])))
  {
    var b := Begun(s, id, job);
    if work.Prepared? {
      RunStepAnswer(id, job, uuids, b, work, SnapshotArtifacts(uuids, s.drawn + 1, id, work.snapshot));
    } else {
      RunStepAnswer(id, job, uuids, b, work, []);
    }
  }

  /** `RunStep`'s answer on any store `t`, for the artifacts `arts` it registers. */
  lemma RunStepAnswer(id: string, job: McpJob, uuids: nat -> string, t: StoreState, work: Work, arts: seq<Artifact>)
    requires arts == if work.Prepared? then SnapshotArtifacts(uuids, t.drawn, id, work.snapshot) else []
    ensures RunStep(id, job, uuids, t, work).0
      == if work.Prepared? then Done(JobFields(Finished(job, work, Ids(arts)), DescriptorsOf(arts))) else Raised(WorkError(work))
  {
  }

  /** `_tool_process_repo` once its arguments are read: the job is
      created under the next id and set running, then the repository is
      collected with the options the arguments give and `RunStep`
      finishes the job. */
  function ParsedStep(p: ProcessArgs, setup: ServerSetup, s: StoreState, now: Instant): (Outcome<Fields>, StoreState)
  {
    var id := setup.uuids(s.drawn);
    RunStep(id, Started(id, p, now), setup.uuids, Begun(s, id, Started(id, p, now)), setup.collect(Collecting(p)))
  }

  /** `_handle_call_tool` for `processRepo` on the store `s`: a crash on
      arguments that are not an object, otherwise the tool's step with its
      answer under the tool's name. */
  function ProcessRepoCall(params: Fields, setup: ServerSetup, s: StoreState, now: Instant): (Outcome<Fields>, StoreState)
  {
    var arguments := ToolArguments(params);
    if !arguments.JObj? then (Crashed, s)
    else
      var step := ProcessRepoStep(arguments.fields, setup, s, now);
      (ToolReply(JStr("processRepo"), step.0), step.1)
  }

  /** The outcomes `processRepo` can have: a crash when its arguments are
      not an object, its result under the tool's name, or an argument,
      clone or processing error. */
  predicate ProcessRepoOutcome(params: Fields, o: Outcome<Fields>) {
    && (!ToolArguments(params).JObj? ==> o == Crashed)
    && (o.Done? ==> |o.value| == 2 && o.value[0] == ("tool", JStr("processRepo")) && o.value[1].0 == "result")
    && (o.Raised? ==> o.error.code in {-32602, -32010, -32603})
  }

  /** A `processRepo` call answers as `ProcessRepoOutcome` allows, and
      leaves the store alone unless its arguments are read; when they are
      read it crashes only if the arguments do. */
  lemma ProcessRepoCallOutcome(params: Fields, setup: ServerSetup, s: StoreState, now: Instant)
    ensures ProcessRepoOutcome(params, ProcessRepoCall(params, setup, s, now).0)
    ensures !ToolArguments(params).JObj? || !ParseProcessArgs(ToolArguments(params).fields, setup.config).Done? ==>
      ProcessRepoCall(params, setup, s, now).1 == s
    ensures ToolArguments(params).JObj? && ParseProcessArgs(ToolArguments(params).fields, setup.config).Done? ==>
      !ProcessRepoCall(params, setup, s, now).0.Crashed?
  {
    var arguments := ToolArguments(params);
    if arguments.JObj? {
      var parsed := ParseProcessArgs(arguments.fields, setup.config);
      if parsed.Done? {
        var work := setup.collect(Collecting(parsed.value));
        if !work.Prepared? {
          assert WorkError(work).code in {-32010, -32603};
        }
      }
    }
  }

  /** Listing after one more id: its job, when stored, comes last. */
  lemma {:induction false} ListedSnoc(jobs: map<string, McpJob>, order: seq<string>, id: string)
    ensures Listed(jobs, order + [id]) == Listed(jobs, order) + (if id in jobs then [jobs[id]] else [])
  {
    if order != [] {
      assert (order + [id])[1..] == order[1..] + [id];
      ListedSnoc(jobs, order[1..], id);
    } else {
      assert Listed(jobs, []) == [];
      assert [id][1..] == [];
    }
  }

  /** Storing a job under an id the order does not name leaves the listing
      alone. */
  lemma {:induction false} ListedOther(jobs: map<string, McpJob>, order: seq<string>, id: string, job: McpJob)
    requires id !in order
    ensures Listed(jobs[id := job], order) == Listed(jobs, order)
  {
    if order != [] {
      ListedOther(jobs, order[1..], id, job);
    }
  }

  /** Once a `processRepo` call has read its arguments, the store lists
      the new job after every job it listed before, so a later
      `listRecentJobs` sees it. */
  lemma ProcessRepoLists(params: Fields, setup: ServerSetup, s: StoreState, now: Instant)
    requires ToolArguments(params).JObj? && ParseProcessArgs(ToolArguments(params).fields, setup.config).Done?
    requires setup.uuids(s.drawn) !in s.order
    ensures var next := ProcessRepoCall(params, setup, s, now).1;
      var id := setup.uuids(s.drawn);
      && id in next.jobs && next.jobs[id].id == id
      && Listed(next.jobs, next.order) == Listed(s.jobs, s.order) + [next.jobs[id]]
  {
    var next := ProcessRepoCall(params, setup, s, now).1;
    var id := setup.uuids(s.drawn);
    var p := ParseProcessArgs(ToolArguments(params).fields, setup.config).value;
    Lifecycle(id, p, now, setup.collect(Collecting(p)), next.jobs[id].artifactIds);
    ListedSnoc(next.jobs, s.order, id);
    ListedOther(s.jobs, s.order, id, Started(id, p, now));
    ListedOther(s.jobs[id := Started(id, p, now)], s.order, id, next.jobs[id]);
  }

  /** The response `_handle_single` gives to `request` on the store `s`
      (none for a crash) and the store it leaves: any method but
      `callTool` is `Answered`, a tool that only reads is answered by
      `ReadOnlyCall` on the jobs in insertion order, and `processRepo` is
      `ProcessRepoCall`; the reply carries the request's id. */
  function Step(request: Json, setup: ServerSetup, s: StoreState, now: Instant): (Option<Fields>, StoreState)
  {
    if !request.JObj? then (None, s)
    else
      var id := RequestId(request.fields);
      if !CallsTool(request.fields) then (Reply(Answered(request.fields, setup.config, setup.docs), id), s)
      else
        var params := ToolParams(request.fields);
        if !params.JObj? then (None, s)
        else if !ProcessesRepo(params.fields) then
          (Reply(ReadOnlyCall(params.fields, Listed(s.jobs, s.order), s.artifacts), id), s)
        else
          var call := ProcessRepoCall(params.fields, setup, s, now);
          (Reply(call.0, id), call.1)
  }

  /** Each item of a batch moves the store as `Step` says, the k-th item
      at `clock(k)`. */
  ghost predicate StoreSteps(items: seq<Json>, seen: seq<StoreState>, setup: ServerSetup, clock: nat -> Instant) {
    forall k :: 0 <= k < |seen| - 1 && k < |items| ==> seen[k + 1] == Step(items[k], setup, seen[k], clock(k)).1
  }

  /** Each response answers its item, in order, against the store the
      item found. */
  ghost predicate BatchResponds(items: seq<Json>, responses: seq<Json>, seen: seq<StoreState>,
                                setup: ServerSetup, clock: nat -> Instant)
  {
    |responses| <= |items| && |responses| <= |seen|
    && forall k :: 0 <= k < |responses| ==>
         responses[k].JObj? && Step(items[k], setup, seen[k], clock(k)).0 == Some(responses[k].fields)
  }

  lemma StepsSnoc(items: seq<Json>, seen: seq<StoreState>, next: StoreState, setup: ServerSetup, clock: nat -> Instant)
    requires StoreSteps(items, seen, setup, clock) && 0 < |seen| <= |items|
    requires next == Step(items[|seen| - 1], setup, seen[|seen| - 1], clock(|seen| - 1)).1
    ensures StoreSteps(items, seen + [next], setup, clock)
  {
    var s := seen + [next];
    forall k | 0 <= k < |s| - 1 && k < |items|
      ensures s[k + 1] == Step(items[k], setup, s[k], clock(k)).1
    {
      assert s[k] == seen[k];
      if k < |seen| - 1 {
        assert s[k + 1] == seen[k + 1];
      }
    }
  }

  lemma BatchSnoc(items: seq<Json>, done: seq<Json>, seen: seq<StoreState>, reply: Json, next: StoreState,
                  setup: ServerSetup, clock: nat -> Instant)
    requires BatchResponds(items, done, seen, setup, clock) && |done| < |items| && |seen| == |done| + 1
    requires reply.JObj? && Step(items[|done|], setup, seen[|done|], clock(|done|)).0 == Some(reply.fields)
    ensures BatchResponds(items, done + [reply], seen + [next], setup, clock)
  {
    var d := done + [reply];
    var s := seen + [next];
    forall k | 0 <= k < |d|
      ensures d[k].JObj? && Step(items[k], setup, s[k], clock(k)).0 == Some(d[k].fields)
    {
      assert s[k] == seen[k];
    }
  }

  /** Every response carries its request's id and version 2.0, and a
      request that is not an object gets none. */
  lemma RespondsUnderId(request: Json, f: Fields, setup: ServerSetup, s: StoreState, now: Instant)
    requires Step(request, setup, s, now).0 == Some(f)
    ensures request.JObj?
    ensures Get(f, "id") == Some(RequestId(request.fields))
    ensures Get(f, "jsonrpc") == Some(JStr("2.0"))
  {
    var id := RequestId(request.fields);
    if !CallsTool(request.fields) {
      ReplyShape(Answered(request.fields, setup.config, setup.docs), id);
    } else {
      var params := ToolParams(request.fields);
      if !ProcessesRepo(params.fields) {
        ReplyShape(ReadOnlyCall(params.fields, Listed(s.jobs, s.order), s.artifacts), id);
      } else {
        ReplyShape(ProcessRepoCall(params.fields, setup, s, now).0, id);
      }
    }
  }

  /** In a batch without a `processRepo` call every item is answered
      against the store as it was before the batch. */
  lemma {:induction false} ReadOnlyBatch(items: seq<Json>, seen: seq<StoreState>, setup: ServerSetup, clock: nat -> Instant)
    requires StoreSteps(items, seen, setup, clock) && |seen| <= |items| + 1
    requires forall k :: 0 <= k < |items| ==> !RunsProcessRepo(items[k])
    ensures forall k :: 0 <= k < |seen| ==> seen[k] == seen[0]
    decreases |seen|
  {
    if |seen| > 1 {
      var shorter := seen[..|seen| - 1];
      assert StoreSteps(items, shorter, setup, clock) by {
        forall k | 0 <= k < |shorter| - 1 && k < |items|
          ensures shorter[k + 1] == Step(items[k], setup, shorter[k], clock(k)).1
        {
          assert shorter[k + 1] == seen[k + 1] && shorter[k] == seen[k];
        }
      }
      ReadOnlyBatch(items, shorter, setup, clock);
      assert seen[|seen| - 1] == Step(items[|seen| - 2], setup, seen[|seen| - 2], clock(|seen| - 2)).1;
      forall k | 0 <= k < |seen| ensures seen[k] == seen[0] {
        if k < |seen| - 1 {
          assert seen[k] == shorter[k];
        }
      }
    }
  }

  class Server {
    const config: McpConfig
    /** The tool descriptions `listTools` gives. */
    const docs: ToolDocs
    const store: JobStore
    /** Preparing the repository and collecting its snapshot. */
    const collect: CollectRequest -> Work

    ghost predicate Valid()
      reads this, store
    {
      store.Valid()
    }

    /** What this server was built with. */
    function Setup(): ServerSetup {
      ServerSetup(config, docs, store.uuids, collect)
    }

    /** `MCPServer(config)`: an empty job store and the server's own tool
        descriptions. */
    constructor(config: McpConfig, uuids: nat -> string, collect: CollectRequest -> Work)
      requires forall i: nat, j: nat :: i != j ==> uuids(i) != uuids(j)
      ensures Valid() && fresh(store)
      ensures this.config == config && this.docs == Docs() && this.collect == collect
      ensures store.uuids == uuids && store.drawn == 0 && store.jobs == map[] && store.artifacts == map[]
    {
      this.config := config;
      this.collect := collect;
      this.docs := Docs();
      store := new JobStore(uuids);
    }

    /** `handle(payload)`: a list is answered item by item, in order, with
        one response per item; anything else is one request. A request
        that crashes aborts the whole payload. The ghost `seen` holds the
        store as each item found it. */
    method Handle(payload: Json, clock: nat -> Instant)
      returns (r: Option<Json>, ghost seen: seq<StoreState>)
      requires Valid()
      modifies store
      ensures Valid()
      ensures !payload.JArr? ==>
        && (r.Some? ==> r.value.JObj?)
        && (if r.Some? then Some(r.value.fields) else None, store.State())
             == Step(payload, Setup(), old(store.State()), clock(0))
      ensures payload.JArr? ==>
        && 0 < |seen| <= |payload.items| + 1
        && seen[0] == old(store.State()) && seen[|seen| - 1] == store.State()
        && StoreSteps(payload.items, seen, Setup(), clock)
        && (r.Some? ==>
              && r.value.JArr? && |r.value.items| == |payload.items| && |seen| == |payload.items| + 1
              && BatchResponds(payload.items, r.value.items, seen, Setup(), clock))
        && (r.None? ==>
              && 1 < |seen|
              && Step(payload.items[|seen| - 2], Setup(), seen[|seen| - 2], clock(|seen| - 2)).0.None?)
    {
      if !payload.JArr? {
        seen := [store.State()];
        var single := HandleSingle(payload, clock(0));
        r := if single.Some? then Some(JObj(single.value)) else None;
        return;
      }
      var responses;
      responses, seen := HandleBatch(payload.items, clock);
      r := if responses.Some? then Some(JArr(responses.value)) else None;
    }

    /** The loop of `handle` over a list payload. */
    method HandleBatch(items: seq<Json>, clock: nat -> Instant)
      returns (responses: Option<seq<Json>>, ghost seen: seq<StoreState>)
      requires Valid()
      modifies store
      ensures Valid()
      ensures 0 < |seen| <= |items| + 1
      ensures seen[0] == old(store.State()) && seen[|seen| - 1] == store.State()
      ensures StoreSteps(items, seen, Setup(), clock)
      ensures responses.Some? ==>
        |responses.value| == |items| && |seen| == |items| + 1
        && BatchResponds(items, responses.value, seen, Setup(), clock)
      ensures responses.None? ==>
        1 < |seen| && Step(items[|seen| - 2], Setup(), seen[|seen| - 2], clock(|seen| - 2)).0.None?
    {
      seen := [store.State()];
      var done: seq<Json> := [];
      var i := 0;
      while i < |items|
        invariant 0 <= i <= |items| && |done| == i && |seen| == i + 1
        invariant Valid()
        invariant seen[0] == old(store.State())
        invariant seen[i] == store.State()
        invariant StoreSteps(items, seen, Setup(), clock)
        invariant BatchResponds(items, done, seen, Setup(), clock)
      {
        ghost var before := seen;
        var single := HandleSingle(items[i], clock(i));
        seen := seen + [store.State()];
        StepsSnoc(items, before, store.State(), Setup(), clock);
        if single.None? {
          return None, seen;
        }
        BatchSnoc(items, done, before, JObj(single.value), store.State(), Setup(), clock);
        done := done + [JObj(single.value)];
        i := i + 1;
      }
      responses := Some(done);
    }

    /** `_handle_single(request)`: a JSON-RPC 2.0 response under the
        request's id, or a crash when the request is not an object. */
    method HandleSingle(request: Json, now: Instant) returns (r: Option<Fields>)
      requires Valid()
      modifies store
      ensures Valid()
      ensures !request.JObj? ==> r.None? && unchanged(store)
      ensures (r, store.State()) == Step(request, Setup(), old(store.State()), now)
      ensures !RunsProcessRepo(request) ==> unchanged(store)
      ensures r.Some? ==>
        && request.JObj?
        && Get(r.value, "id") == Some(RequestId(request.fields))
        && Get(r.value, "jsonrpc") == Some(JStr("2.0"))
    {
      if !request.JObj? {
        return None;
      }
      store.JobsListed();
      var o := Dispatch(request.fields, now);
      ReplyShape(o, RequestId(request.fields));
      r := Reply(o, RequestId(request.fields));
    }

    /** The `try` block of `_handle_single`: the version check, then the
        method's handler. */
    method Dispatch(request: Fields, now: Instant) returns (o: Outcome<Fields>)
      requires Valid()
      modifies store
      ensures Valid()
      ensures !CallsTool(request) ==> o == Answered(request, config, docs) && unchanged(store)
      ensures CallsTool(request) ==>
        var params := ToolParams(request);
        && (!params.JObj? ==> o == Crashed && unchanged(store))
        && (params.JObj? && !ProcessesRepo(params.fields) ==>
              o == ReadOnlyCall(params.fields, old(store.Jobs()), old(store.artifacts)) && unchanged(store))
        && (params.JObj? && ProcessesRepo(params.fields) ==>
              (o, store.State()) == ProcessRepoCall(params.fields, Setup(), old(store.State()), now))
    {
      if !CallsTool(request) {
        return Answered(request, config, docs);
      }
      o := CallTool(ToolParams(request), now);
    }

    /** `_handle_call_tool(params)`: -32602 without a tool name, -32601
        for a name it does not know, otherwise the tool's outcome, its
        result wrapped with the tool's name. Only `processRepo` changes
        the store. */
    method CallTool(params: Json, now: Instant) returns (o: Outcome<Fields>)
      requires Valid()
      modifies store
      ensures Valid()
      ensures !params.JObj? ==> o == Crashed && unchanged(store)
      ensures params.JObj? && !ProcessesRepo(params.fields) ==>
        o == ReadOnlyCall(params.fields, old(store.Jobs()), store.artifacts) && unchanged(store)
      ensures params.JObj? && ProcessesRepo(params.fields) ==>
        && (!ToolArguments(params.fields).JObj? ==> unchanged(store))
        && (o, store.State()) == ProcessRepoCall(params.fields, Setup(), old(store.State()), now)
    {
      if !params.JObj? {
        return Crashed;
      }
      if !ProcessesRepo(params.fields) {
        o := CallReadOnly(params.fields);
        return;
      }
      o := CallProcessRepo(params.fields, now);
    }

    /** `_handle_call_tool` for `processRepo`: the arguments must be an
        object, and the tool's answer is wrapped with its name. */
    method CallProcessRepo(params: Fields, now: Instant) returns (o: Outcome<Fields>)
      requires Valid() && ProcessesRepo(params)
      modifies store
      ensures Valid()
      ensures !ToolArguments(params).JObj? ==> o == Crashed && unchanged(store)
      ensures (o, store.State()) == ProcessRepoCall(params, Setup(), old(store.State()), now)
      ensures o.Done? ==> |o.value| == 2 && o.value[0] == ("tool", JStr("processRepo")) && o.value[1].0 == "result"
      ensures o.Raised? ==> o.error.code in {-32602, -32010, -32603}
    {
      var arguments := ToolArguments(params);
      if !arguments.JObj? {
        return Crashed;
      }
      var result := ProcessRepo(arguments.fields, now);
      o := ToolReply(JStr("processRepo"), result);
    }

    /** `_handle_call_tool` for any tool name but `processRepo`. */
    method CallReadOnly(params: Fields) returns (o: Outcome<Fields>)
      requires Valid() && !ProcessesRepo(params)
      ensures o == ReadOnlyCall(params, store.Jobs(), store.artifacts)
    {
      var name := Arg(params, "name");
      if !Truthy(name) {
        return Raised(InvalidParams("Tool name is required"));
      }
      var arguments := ToolArguments(params);
      var result: Outcome<Fields>;
      if name == JStr("listRecentJobs") {
        if !arguments.JObj? {
          return Crashed;
        }
        result := ListRecentJobs(arguments.fields);
      } else if name == JStr("getArtifact") {
        if !arguments.JObj? {
          return Crashed;
        }
        result := GetArtifactTool(arguments.fields);
      } else {
        return Raised(UnknownTool(name));
      }
      o := ToolReply(name, result);
    }

    /** `_tool_list_recent_jobs(arguments)` */
    method ListRecentJobs(args: Fields) returns (o: Outcome<Fields>)
      requires Valid()
      ensures o == RecentJobs(args, store.Jobs(), store.artifacts)
    {
      var limit := RecentLimit(args);
      if limit.Raised? {
        return Raised(limit.error);
      }
      var jobs := store.ListJobs(limit.value);
      o := Done([("jobs", JArr(jobs))]);
    }

    /** `_tool_get_artifact(arguments)` */
    method GetArtifactTool(args: Fields) returns (o: Outcome<Fields>)
      requires Valid()
      ensures o == ArtifactAnswer(args, store.artifacts)
    {
      var v := Arg(args, "artifactId");
      if !Truthy(v) {
        return Raised(InvalidParams("'artifactId' is required"));
      }
      if v.JArr? || v.JObj? {
        return Crashed;
      }
      if !v.JStr? {
        return Raised(UnknownArtifact(PyStr(v)));
      }
      var found := store.GetArtifact(v.s);
      if found.Err? {
        return Raised(found.error);
      }
      o := Done([("artifact", JObj(Payload(found.value)))]);
    }

    /** `_tool_process_repo(arguments)`: the argument checks change
        nothing; once they pass, a job is created, set running, and
        finished as `Finished` says, and the answer is the job's
        descriptor or the error the failure maps to. */
    method ProcessRepo(args: Fields, now: Instant) returns (o: Outcome<Fields>)
      requires Valid()
      modifies store
      ensures Valid()
      ensures !ParseProcessArgs(args, config).Done? ==> unchanged(store)
      ensures ParseProcessArgs(args, config).Done? ==> store.uuids(old(store.drawn)) !in old(store.jobs)
      ensures (o, store.State()) == ProcessRepoStep(args, Setup(), old(store.State()), now)
      ensures o.Raised? ==> o.error.code in {-32602, -32010, -32603}
    {
      var parsed := ParseProcessArgs(args, config);
      if !parsed.Done? {
        o := if parsed.Raised? then Raised(parsed.error) else Crashed;
        return;
      }
      o := ProcessParsed(parsed.value, now);
    }

    /** `_tool_process_repo` once its arguments are read: the job is
        created and set running, the repository is collected with the
        options the arguments give, and the job is finished. */
    method ProcessParsed(p: ProcessArgs, now: Instant) returns (o: Outcome<Fields>)
      requires Valid()
      modifies store
      ensures Valid()
      ensures store.uuids(old(store.drawn)) !in old(store.jobs)
      ensures (o, store.State()) == ParsedStep(p, Setup(), old(store.State()), now)
    {
      var options := McpTools.BuildProcessingOptions(p.ignorePatterns, p.includePatterns, p.allowedExtensions,
                                            p.allowNonCode, p.maxFileBytes);
      var id := StartJob(p, now);
      var work := Collect(p, options);
      o := RunJob(id, Started(id, p, now), work);
    }

    /** `_prepare_repository` and `collect_repo_snapshot` with the
        options built from the arguments: the work ends as the
        preparation step says for `Collecting(p)`. */
    method Collect(p: ProcessArgs, options: ProcessingOptions) returns (work: Work)
      requires options == Collecting(p).options
      ensures work == collect(Collecting(p))
    {
      work := collect(CollectRequest(p.repository, p.ref, p.githubPat, options, p.chunkTokenLimit));
    }

    /** `create_job` followed by `update_status(job_id, "running")`: the
        new job is stored under a fresh id, after every older job, and is
        running. */
    method StartJob(p: ProcessArgs, now: Instant) returns (id: string)
      requires Valid()
      modifies store
      ensures Valid()
      ensures id == store.uuids(old(store.drawn)) && id !in old(store.jobs)
      ensures store.jobs == old(store.jobs)[id := Started(id, p, now)]
      ensures store.order == old(store.order) + [id]
      ensures store.artifacts == old(store.artifacts) && store.drawn == old(store.drawn) + 1
      ensures store.State() == Begun(old(store.State()), id, Started(id, p, now))
    {
      var job := store.CreateJob(JobRequest(p), now);
      var running := store.UpdateStatus(job.id, "running", None, None, None);
      MapUpdateTwice(old(store.jobs), job.id, job, running.value);
      id := job.id;
    }

    /** The `try` block of `_tool_process_repo`: a snapshot is stored and
        completes the job, a failure marks it failed and maps to its MCP
        error. */
    method RunJob(id: string, job: McpJob, work: Work) returns (o: Outcome<Fields>)
      requires Valid() && id in store.jobs && store.jobs[id] == job
      modifies store
      ensures Valid() && store.order == old(store.order)
      ensures (o, store.State()) == RunStep(id, job, store.uuids, old(store.State()), work)
    {
      match work {
        case Prepared(s) =>
          o := CompleteJob(id, job, s);
          assert store.State() == RunStep(id, job, store.uuids, old(store.State()), work).1;
        case CloneError(message) =>
          var _ := store.UpdateStatus(id, "failed", None, None, Some(message));
          o := Raised(CloneFailed(message));
        case OtherError(message) =>
          var _ := store.UpdateStatus(id, "failed", None, None, Some(message));
          o := Raised(ProcessingFailed(message));
      }
    }

    /** The success path of `_tool_process_repo`: the snapshot's
        artifacts are stored, the job completes with the snapshot's
        warnings and token summary, and the answer is its descriptor with
        the descriptors of the stored artifacts. */
    method CompleteJob(id: string, job: McpJob, s: RepoSnapshot) returns (o: Outcome<Fields>)
      requires Valid() && id in store.jobs && store.jobs[id] == job
      modifies store
      ensures Valid() && store.order == old(store.order)
      ensures var arts := SnapshotArtifacts(store.uuids, old(store.drawn), id, s);
        && store.artifacts == Registered(old(store.artifacts), arts)
        && store.jobs == old(store.jobs)[id := Finished(job, Prepared(s), Ids(arts))]
        && store.drawn == old(store.drawn) + |arts|
        && o == Done(JobFields(Finished(job, Prepared(s), Ids(arts)), DescriptorsOf(arts)))
    {
      ghost var arts := SnapshotArtifacts(store.uuids, store.drawn, id, s);
      var descriptors := StoreSnapshotArtifacts(id, s);
      ghost var attached := store.jobs;
      var updated := store.UpdateStatus(id, "completed", Some(s.warnings), Some(TokenSummary(s)), None);
      assert updated.value == Finished(job, Prepared(s), Ids(arts));
      MapUpdateTwice(old(store.jobs), id, attached[id], updated.value);
      var payload := store.DescribeJob(id);
      AssignArtifacts(store.jobs[id], LinkedDescriptors(store.artifacts, store.jobs[id].artifactIds), descriptors);
      o := Done(Assign(payload.value, "artifacts", JArr(descriptors)));
    }

    /** `_store_snapshot_artifacts(job_id, snapshot)`: registers the
        repository map and then every chunk, appends their ids to the
        job, and returns their descriptors in that order. */
    method StoreSnapshotArtifacts(jobId: string, s: RepoSnapshot) returns (descriptors: seq<Json>)
      requires Valid() && jobId in store.jobs
      modifies store
      ensures Valid()
      ensures store.drawn == old(store.drawn) + 1 + |s.chunks| && store.order == old(store.order)
      ensures var arts := SnapshotArtifacts(store.uuids, old(store.drawn), jobId, s);
        && descriptors == DescriptorsOf(arts)
        && store.artifacts == Registered(old(store.artifacts), arts)
        && store.jobs == Attach(old(store.jobs), jobId, Ids(arts))
    {
      var first := store.RegisterArtifact(jobId, "repo-map", "text/markdown", s.repoMapText,
                                          Some("Consolidated repository structure"), None);
      assert first.value == RepoMapAt(store.uuids, old(store.drawn), jobId, s);
      ghost var chunkArts := ChunkArtifacts(store.uuids, old(store.drawn) + 1, jobId, s.chunks);
      assert chunkArts == ChunkArtifacts(store.uuids, store.drawn, jobId, s.chunks);
      var rest := RegisterChunks(jobId, s.chunks);
      assert rest == DescriptorsOf(chunkArts);
      descriptors := [JObj(Descriptor(first.value))] + rest;
      FrontThenChunks(old(store.artifacts), old(store.jobs), jobId, first.value, chunkArts);
    }

    /** The `for chunk in snapshot.chunks` loop of
        `_store_snapshot_artifacts`. */
    method RegisterChunks(jobId: string, chunks: seq<Chunk>) returns (descriptors: seq<Json>)
      requires Valid() && jobId in store.jobs
      modifies store
      ensures Valid()
      ensures var arts := ChunkArtifacts(store.uuids, old(store.drawn), jobId, chunks);
        && descriptors == DescriptorsOf(arts)
        && store.drawn == old(store.drawn) + |arts|
        && store.artifacts == Registered(old(store.artifacts), arts)
        && store.jobs == Attach(old(store.jobs), jobId, Ids(arts))
        && store.order == old(store.order)
    {
      ghost var arts := ChunkArtifacts(store.uuids, store.drawn, jobId, chunks);
      ghost var table := store.artifacts;
      ghost var jobs := store.jobs;
      descriptors := [];
      assert arts[..0] == [];
      AttachNothing(jobs, jobId);
      var i := 0;
      while i < |chunks|
        invariant 0 <= i <= |chunks|
        invariant Valid() && store.order == old(store.order)
        invariant store.drawn == old(store.drawn) + i
        invariant descriptors == DescriptorsOf(arts[..i])
        invariant store.artifacts == Registered(table, arts[..i])
        invariant store.jobs == Attach(jobs, jobId, Ids(arts[..i]))
      {
        var c := chunks[i];
        PrefixStep(arts, table, jobs, jobId, i);
        var r := store.RegisterArtifact(jobId, ChunkName(c.index), "text/markdown", c.content, None,
                                        Some([("tokenCount", JInt(c.tokenCount)), ("fileCount", JInt(c.fileCount))]));
        assert r.value == arts[i];
        descriptors := descriptors + [JObj(Descriptor(r.value))];
        i := i + 1;
      }
      assert arts[..i] == arts;
    }
  }
}
