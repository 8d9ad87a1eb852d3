/** The records of the MCP server: the JSON-RPC error it raises, the
    artifacts and jobs its store keeps, and the JSON documents it answers
    with (`to_json`, `to_descriptor`, `to_payload`, the token summary). */
module McpRecords {
  import opened Basics
  import opened JsonValues
  import opened ServiceFilter
  import opened ServiceChunks

  const JsonRpcVersion: string := "2.0"

  /** `MCPError`, with `data or {}` already applied. */
  datatype McpError = McpError(code: int, message: string, data: Fields)

  /** The `error` member of an error response. */
  function ErrorObject(e: McpError): Fields {
    [("code", JInt(e.code)), ("message", JStr(e.message))]
    + (if e.data != [] then [("data", JObj(e.data))] else [])
  }

  /** `MCPError.to_json(request_id)` */
  function ErrorResponse(e: McpError, requestId: Json): Fields {
    [("jsonrpc", JStr(JsonRpcVersion)), ("id", requestId), ("error", JObj(ErrorObject(e)))]
  }

  /** An error response is a JSON-RPC 2.0 error object (section 5.1 of the
      JSON-RPC 2.0 specification) carrying the request's id, the code and
      the message, and `data` exactly when the error has some. */
  lemma ErrorResponseShape(e: McpError, requestId: Json)
    ensures Keys(ErrorResponse(e, requestId)) == ["jsonrpc", "id", "error"]
    ensures Get(ErrorResponse(e, requestId), "jsonrpc") == Some(JStr("2.0"))
    ensures Get(ErrorResponse(e, requestId), "id") == Some(requestId)
    ensures Get(ErrorObject(e), "code") == Some(JInt(e.code))
    ensures Get(ErrorObject(e), "message") == Some(JStr(e.message))
    ensures Get(ErrorObject(e), "data").Some? <==> e.data != []
    ensures e.data != [] ==> Get(ErrorObject(e), "data") == Some(JObj(e.data))
  {
    var o := ErrorObject(e);
    var r := ErrorResponse(e, requestId);
    GetFirst(r, "jsonrpc", 0);
    GetFirst(r, "id", 1);
    GetFirst(o, "code", 0);
    GetFirst(o, "message", 1);
    GetSpec(o, "data");
    if e.data != [] {
      GetFirst(o, "data", 2);
    }
  }

  /** `ArtifactRecord` */
  datatype Artifact = Artifact(
    id: string,
    jobId: string,
    name: string,
    mimeType: string,
    content: string,
    description: Option<string>,
    metadata: Fields)

  /** `ArtifactRecord.to_descriptor` */
  function Descriptor(a: Artifact): Fields {
    [("artifactId", JStr(a.id)), ("name", JStr(a.name)), ("mimeType", JStr(a.mimeType))] + DescriptorTail(a)
  }

  /** `ArtifactRecord.to_payload` */
  function Payload(a: Artifact): Fields {
    Descriptor(a) + [("content", JStr(a.content))]
  }

  /** A descriptor names the artifact, its name and media type, holds the
      description only when it is a nonempty string and the metadata only
      when it is a nonempty dict, and never holds the content. */
  lemma DescriptorShape(a: Artifact)
    ensures Get(Descriptor(a), "artifactId") == Some(JStr(a.id))
    ensures Get(Descriptor(a), "name") == Some(JStr(a.name))
    ensures Get(Descriptor(a), "mimeType") == Some(JStr(a.mimeType))
    ensures Get(Descriptor(a), "description").Some? <==> a.description.Some? && a.description.value != ""
    ensures Get(Descriptor(a), "description").Some? ==> Get(Descriptor(a), "description") == Some(JStr(a.description.value))
    ensures Get(Descriptor(a), "metadata").Some? <==> a.metadata != []
    ensures Get(Descriptor(a), "metadata").Some? ==> Get(Descriptor(a), "metadata") == Some(JObj(a.metadata))
    ensures Get(Descriptor(a), "content").None?
  {
    var head := [("artifactId", JStr(a.id)), ("name", JStr(a.name)), ("mimeType", JStr(a.mimeType))];
    var tail := DescriptorTail(a);
    assert Descriptor(a) == head + tail;
    GetFirst(head, "artifactId", 0);
    GetFirst(head, "name", 1);
    GetFirst(head, "mimeType", 2);
    GetConcat(head, tail, "artifactId");
    GetConcat(head, tail, "name");
    GetConcat(head, tail, "mimeType");
    OptionalKeys(head, tail, "description");
    OptionalKeys(head, tail, "metadata");
    OptionalKeys(head, tail, "content");
    DescriptorTailShape(a);
  }

  /** The optional part of a descriptor: the description when truthy,
      then the metadata when truthy. */
  function DescriptorTail(a: Artifact): Fields {
    (if a.description.Some? && a.description.value != "" then [("description", JStr(a.description.value))] else [])
    + (if a.metadata != [] then [("metadata", JObj(a.metadata))] else [])
  }

  lemma OptionalKeys(head: Fields, tail: Fields, key: string)
    requires forall k :: 0 <= k < |head| ==> head[k].0 != key
    ensures Get(head + tail, key) == Get(tail, key)
  {
    GetSpec(head, key);
    GetConcat(head, tail, key);
  }

  lemma DescriptorTailShape(a: Artifact)
    ensures Get(DescriptorTail(a), "description").Some? <==> a.description.Some? && a.description.value != ""
    ensures Get(DescriptorTail(a), "description").Some? ==> Get(DescriptorTail(a), "description") == Some(JStr(a.description.value))
    ensures Get(DescriptorTail(a), "metadata").Some? <==> a.metadata != []
    ensures Get(DescriptorTail(a), "metadata").Some? ==> Get(DescriptorTail(a), "metadata") == Some(JObj(a.metadata))
    ensures Get(DescriptorTail(a), "content").None?
  {
    var desc := if a.description.Some? && a.description.value != "" then [("description", JStr(a.description.value))] else [];
    var meta := if a.metadata != [] then [("metadata", JObj(a.metadata))] else [];
    GetSpec(desc, "metadata");
    GetSpec(desc, "content");
    GetSpec(meta, "description");
    GetSpec(meta, "content");
    GetConcat(desc, meta, "description");
    GetConcat(desc, meta, "metadata");
    GetConcat(desc, meta, "content");
    if desc != [] {
      GetFirst(desc, "description", 0);
    }
    if meta != [] {
      GetFirst(meta, "metadata", 0);
    }
  }

  /** The payload is the descriptor with the content added: every other
      key reads as in the descriptor. */
  lemma PayloadShape(a: Artifact, key: string)
    ensures Get(Payload(a), "content") == Some(JStr(a.content))
    ensures key != "content" ==> Get(Payload(a), key) == Get(Descriptor(a), key)
  {
    DescriptorShape(a);
    GetConcat(Descriptor(a), [("content", JStr(a.content))], "content");
    GetConcat(Descriptor(a), [("content", JStr(a.content))], key);
  }

  /** A `datetime` as the store uses it: an instant that orders jobs and
      the text `isoformat()` gives for it. */
  datatype Instant = Instant(ticks: int, iso: string)

  /** The MCP `JobRecord` */
  datatype McpJob = McpJob(
    id: string,
    createdAt: Instant,
    status: string,
    request: Fields,
    warnings: seq<string>,
    artifactIds: seq<string>,
    tokenSummary: Option<Fields>,
    error: Option<string>)

  function ArtifactKey(a: Artifact): string {
    a.id
  }

  function Found(a: Artifact): Option<Artifact> {
    Some(a)
  }

  /** `{artifact.id: artifact for artifact in artifacts}` */
  function Lookup(artifacts: seq<Artifact>): map<string, Artifact> {
    Indexed(Found, ArtifactKey, artifacts)
  }

  /** The descriptors of the listed artifacts found in a lookup, in list
      order, skipping ids that are not there. */
  function LinkedDescriptors(lookup: map<string, Artifact>, ids: seq<string>): (r: seq<Json>)
    ensures |r| <= |ids|
  {
    if ids == [] then []
    else (if ids[0] in lookup then [JObj(Descriptor(lookup[ids[0]]))] else []) + LinkedDescriptors(lookup, ids[1..])
  }

  function JStrs(xs: seq<string>): seq<Json> {
    Map((x: string) => JStr(x), xs)
  }

  function OptionalStr(s: Option<string>): Json {
    if s.Some? then JStr(s.value) else JNull
  }

  function OptionalObj(d: Option<Fields>): Json {
    if d.Some? then JObj(d.value) else JNull
  }

  /** The descriptor of a job around a given artifact list. */
  function JobFields(job: McpJob, artifacts: seq<Json>): Fields {
    [ ("jobId", JStr(job.id)),
      ("createdAt", JStr(job.createdAt.iso)),
      ("status", JStr(job.status)),
      ("warnings", JArr(JStrs(job.warnings))),
      ("error", OptionalStr(job.error)),
      ("tokenSummary", OptionalObj(job.tokenSummary)),
      ("artifacts", JArr(artifacts)) ]
  }

  /** `JobRecord.to_descriptor(artifacts)` */
  function JobDescriptor(job: McpJob, artifacts: seq<Artifact>): Fields {
    JobFields(job, LinkedDescriptors(Lookup(artifacts), job.artifactIds))
  }

  /** `[store[i] for i in ids if i in store]`: the stored artifacts of a
      list of ids, in list order. */
  function Present(ids: seq<string>, store: map<string, Artifact>): (r: seq<Artifact>)
    ensures |r| <= |ids|
  {
    if ids == [] then []
    else (if ids[0] in store then [store[ids[0]]] else []) + Present(ids[1..], store)
  }

  /** What `describe_job` gathers comes from the store, each artifact
      under its own id. */
  lemma {:induction false} PresentStored(ids: seq<string>, store: map<string, Artifact>)
    requires forall i :: i in store ==> store[i].id == i
    ensures forall k :: 0 <= k < |Present(ids, store)| ==>
      Present(ids, store)[k].id in store && store[Present(ids, store)[k].id] == Present(ids, store)[k]
  {
    if ids != [] {
      PresentStored(ids[1..], store);
    }
  }

  /** Two lookups that agree on a list of ids give the same descriptors. */
  lemma {:induction false} LinkedAgree(m1: map<string, Artifact>, m2: map<string, Artifact>, ids: seq<string>)
    requires forall i :: i in ids ==> (i in m1 <==> i in m2) && (i in m1 ==> m1[i] == m2[i])
    ensures LinkedDescriptors(m1, ids) == LinkedDescriptors(m2, ids)
  {
    if ids != [] {
      LinkedAgree(m1, m2, ids[1..]);
    }
  }

  /** Looking up the artifacts `describe_job` gathers finds, for every
      listed id, the stored artifact, when each artifact is stored under its
      own id. */
  lemma PresentLookup(ids: seq<string>, store: map<string, Artifact>)
    requires forall i :: i in store ==> store[i].id == i
    ensures forall i :: i in ids ==> (i in Lookup(Present(ids, store)) <==> i in store)
    ensures forall i :: i in ids && i in store ==> Lookup(Present(ids, store))[i] == store[i]
  {
    var arts := Present(ids, store);
    IndexedKeys(Found, ArtifactKey, arts);
    IndexedValues(Found, ArtifactKey, arts);
    PresentStored(ids, store);
    forall i | i in ids && i in store
      ensures i in Lookup(arts)
    {
      PresentHolds(ids, store, i);
      var k :| 0 <= k < |arts| && arts[k] == store[i];
      assert Found(arts[k]).Some? && ArtifactKey(Found(arts[k]).value) == i;
    }
    forall i | i in Lookup(arts)
      ensures i in store && Lookup(arts)[i] == store[i]
    {
      var k :| 0 <= k < |arts| && Found(arts[k]) == Some(Lookup(arts)[i]);
      assert ArtifactKey(Lookup(arts)[i]) == i;
    }
  }

  lemma {:induction false} PresentHolds(ids: seq<string>, store: map<string, Artifact>, i: string)
    requires i in ids && i in store
    ensures exists k :: 0 <= k < |Present(ids, store)| && Present(ids, store)[k] == store[i]
  {
    if ids[0] == i {
      assert Present(ids, store)[0] == store[i];
    } else {
      assert i in ids[1..];
      PresentHolds(ids[1..], store, i);
      var rest := Present(ids[1..], store);
      var k :| 0 <= k < |rest| && rest[k] == store[i];
      var head := if ids[0] in store then [store[ids[0]]] else [];
      assert Present(ids, store)[|head| + k] == store[i];
    }
  }

  /** Describing a job through the artifacts gathered from the store lists
      the descriptors of the stored artifacts in `artifact_ids` order,
      skipping ids that have none. */
  lemma DescribeFromStore(job: McpJob, store: map<string, Artifact>)
    requires forall i :: i in store ==> store[i].id == i
    ensures JobDescriptor(job, Present(job.artifactIds, store)) == JobFields(job, LinkedDescriptors(store, job.artifactIds))
  {
    PresentLookup(job.artifactIds, store);
    LinkedAgree(Lookup(Present(job.artifactIds, store)), store, job.artifactIds);
  }

  /** When every listed id is stored, each one gets its descriptor, in
      list order. */
  lemma {:induction false} LinkedAll(store: map<string, Artifact>, ids: seq<string>)
    requires forall k :: 0 <= k < |ids| ==> ids[k] in store
    ensures |LinkedDescriptors(store, ids)| == |ids|
    ensures forall k :: 0 <= k < |ids| ==> LinkedDescriptors(store, ids)[k] == JObj(Descriptor(store[ids[k]]))
  {
    if ids != [] {
      LinkedAll(store, ids[1..]);
    }
  }

  /** `chunk.index:04d` after `chunk-` */
  function ChunkName(index: nat): string {
    "chunk-" + ZeroPad(NatToString(index), 4)
  }

  /** A chunk's artifact name starts with `chunk-`, is ten characters for an
      index below 10000, and gives the index back when read, so distinct
      chunks get distinct names. */
  lemma ChunkNameIndex(index: nat)
    ensures StartsWith(ChunkName(index), "chunk-")
    ensures index < 10000 ==> |ChunkName(index)| == 10
    ensures AllDigits(ChunkName(index)[6..]) && ParseNat(ChunkName(index)[6..]) == index
  {
    var digits := NatToString(index);
    ParseNatToString(index);
    assert ChunkName(index)[6..] == ZeroPad(digits, 4);
    if index < 10000 {
      NatToStringLength(index);
    }
  }

  lemma {:induction false} NatToStringLength(n: nat)
    requires n < 10000
    ensures |NatToString(n)| <= if n < 10 then 1 else if n < 100 then 2 else if n < 1000 then 3 else 4
  {
    if n >= 10 {
      NatToStringLength(n / 10);
    }
  }

  lemma ChunkNamesDistinct(i: nat, j: nat)
    requires i != j
    ensures ChunkName(i) != ChunkName(j)
  {
    ChunkNameIndex(i);
    ChunkNameIndex(j);
  }

  /** `sum(chunk.token_count for chunk in chunks)` */
  function ChunkTokens(chunks: seq<Chunk>): nat {
    if chunks == [] then 0 else ChunkTokens(chunks[..|chunks| - 1]) + chunks[|chunks| - 1].tokenCount
  }

  /** `TokenEstimator.description` without the optional encoder. */
  function StrategyDescription(enabled: bool): string {
    if enabled then "approximate (characters / 4)" else "disabled"
  }

  /** `_build_token_summary(snapshot)` */
  function TokenSummary(s: RepoSnapshot): Fields {
    [ ("chunkTokens", JInt(ChunkTokens(s.chunks))),
      ("chunkCount", JInt(|s.chunks|)),
      ("repoMapTokens", JInt(TokenCount(s.estimatorEnabled, s.repoMapText))),
      ("estimationStrategy", JStr(StrategyDescription(s.estimatorEnabled))) ]
  }

  /** The chunk token total is the sum of the token counts of the files
      the chunks were built from. */
  lemma {:induction false} ChunkTokensOfSummaries(gs: seq<seq<Block>>)
    ensures ChunkTokens(Summaries(gs)) == Tokens(Flatten(gs))
  {
    if gs != [] {
      var init := gs[..|gs| - 1];
      SummariesSnoc(init, gs[|gs| - 1]);
      assert gs == init + [gs[|gs| - 1]];
      assert Summaries(gs)[..|gs| - 1] == Summaries(init);
      ChunkTokensOfSummaries(init);
      FlattenAppend(init, gs[|gs| - 1]);
      TokensConcat(Flatten(init), gs[|gs| - 1]);
    }
  }

  /** The token summary of a snapshot: `chunkTokens` is the sum of the
      chunks' counts, which is the total over all files chunked, and
      `chunkCount` the number of chunks. */
  lemma TokenSummaryTotals(s: RepoSnapshot, blocks: seq<Block>, chunkTokenLimit: Option<int>)
    requires s.chunks == Chunked(blocks, chunkTokenLimit)
    ensures Get(TokenSummary(s), "chunkTokens") == Some(JInt(Tokens(blocks)))
    ensures Get(TokenSummary(s), "chunkCount") == Some(JInt(|s.chunks|))
  {
    GroupsPartition(blocks, ChunkLimit(chunkTokenLimit));
    ChunkTokensOfSummaries(Groups(blocks, ChunkLimit(chunkTokenLimit)));
  }
}
