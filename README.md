# repo2gpt job tracking, file selection and MCP router — a Dafny model

repo2gpt turns a source tree into text an LLM can read. It writes a
consolidated snapshot cut into token-bounded chunks, plus a repository map.
It offers this in three ways: as a command-line tool (`main.py`), as an
HTTP API that runs snapshots as background jobs and streams their progress
(`api/server.py`), and as a JSON-RPC server for the Model Context Protocol
(`integrations/mcp/server.py`). All three share the file-selection and
chunking rules of `repo2gpt/service.py`.

This project models the logic of those four files and proves what they
promise.

- **HTTP API** (`api_*.dfy`):
  - the job record and its persisted status document (`to_dict`/`from_dict`, proved to round-trip);
  - the `JobStore` class, with create/get/update/append and reloading after a restart;
  - the `EventBroker` class, with subscribe, unsubscribe and fan-out publish;
  - `emit_event` and the `_run_job` lifecycle;
  - the replay-then-tail merge of `event_generator`;
  - the frames of `_format_sse`, checked against a reader of the event-stream format of section 9.2 of the WHATWG HTML Living Standard;
  - the API-key check, the source dispatch, the processing options of a request;
  - the archive-suffix table;
  - the status gates of the artifacts endpoint.
- **Snapshot service** (`service_filter.dfy`, `service_chunks.dfy`):
  - gitignore-style pattern expansion;
  - relative paths;
  - the directory deny rule and the include/ignore precedence;
  - the fallback token estimate;
  - the chunk partition, proved to be a partition of the file blocks that respects the token limit;
  - the order in which `collect_repo_snapshot` hands out its parts.
- **Command-line tool** (`cli.dfy`):
  - its own pattern expansion, with the differences from the service proved;
  - `_ordered_unique`;
  - `resolve_skip_paths` over paths given as segment lists;
  - `build_processing_options`.
- **MCP server** (`mcp_*.dfy`):
  - the error object of section 5.1 of the JSON-RPC 2.0 specification;
  - the artifact and job records and their descriptors;
  - the in-memory `JobStore` class;
  - the router (`handle`, `_handle_single`, `_handle_call_tool`), including batches;
  - the tools `processRepo`, `listRecentJobs` and `getArtifact`;
  - snapshot artifact registration and the token summary;
  - personal-access-token injection into clone URLs, with percent-encoding per section 2.1 of RFC 3986 over UTF-8 (section 3 of RFC 3629).

Shared modules:

- `basics.dfy` holds Python's string methods and decimal text.
- `json.dfy` holds JSON values with ordered object fields, plus `json.dumps` with its default `ensure_ascii` escapes.

A few modelling choices apply throughout:

- A JSON object is a list of key/value pairs, because Python dicts keep insertion order.
- Glob matching (`PurePosixPath.match`) is a function parameter `glob`.
- The clock and random ids are parameters.
- The snapshot collaborator is an outcome value. It either returns a result or raises, and it carries the progress events it emitted.

In these places the model follows what the code does:

- The store accepts any status change. It does not enforce `pending → running → completed|failed`; only `_run_job`'s call order does (`ApiOrchestrator.RunJobLifecycle`).
- The stream drops a live event only when its id is nonzero and not above the high-water mark. An event without an id is always sent, so only nonzero ids are proved to strictly increase.
- A terminal event met during the replay does not end the stream (`ApiStream.ReplayDoesNotEnd`).
- The running event is a `status` event whose `data.status` is `running`.

## Model

| member | source | states |
|---|---|---|
| ApiRecords.ParseStatus | api/server.py:40-46 | `JobStatus(v)` succeeds exactly for the four value strings, and the status it gives has `v` as its value |
| ApiRecords.StatusRoundTrip | api/server.py:40-46 | looking a status up by its own value gives the status back |
| ApiRecords.EventsToJson | api/server.py:59-66 | one object per event, in order, each being that event's `to_dict` |
| ApiRecords.Require | api/server.py:110-113 | `d[key]` gives a value exactly when the key is present and raises `KeyError(key)` otherwise |
| ApiRecords.ParseDt | api/server.py:96-97 | a timestamp is read exactly when the value is a string, and is kept as that text (weaker: the ISO-8601 check is not modelled, see Left out) |
| ApiRecords.EventFromJson | api/server.py:99-108 | an events entry that is not a dict raises `TypeError` (weaker: field types are checked, see Left out) |
| ApiRecords.EventsFromJson | api/server.py:99-108 | the events list loads exactly when every entry loads, giving one event per entry |
| ApiRecords.FromDict | api/server.py:95-118 | a loaded record carries the document's `id` and `status` strings (weaker: field types are checked and timestamps are not, see Left out) |
| ApiRecords.EventRoundTrip | api/server.py:59-108 | reading back an event's `to_dict` gives the same event |
| ApiRecords.EventsRoundTrip | api/server.py:82-108 | reading back the written events list gives the same events in the same order |
| ApiRecords.ToDictReads | api/server.py:82-118 | every field `from_dict` reads from `to_dict`'s document holds the record's own value |
| ApiRecords.RecordRoundTrip | api/server.py:82-118 | `from_dict(to_dict(r)) == r` for every record |
| ApiRecords.NonIterableEventsRejected | api/server.py:99-108 | a document whose `events` is null or a number cannot be loaded (`TypeError`) |
| ApiStore.Parsed | api/server.py:131-144 | an entry yields a record only when it is a directory whose `status.json` holds a JSON object |
| ApiStore.LoadedKeys | api/server.py:131-144 | every loaded record sits under its own id, and the loaded ids are exactly those of the entries that parse |
| ApiStore.LoadedLatest | api/server.py:131-144 | the record kept for an id is the one from the last entry that parses with that id |
| ApiStore.StatusEntries | api/server.py:211-213 | one status document per listed job directory |
| ApiStore.ReloadWritten | api/server.py:131-213 | reloading the status documents the store wrote gives back exactly the records it held for those jobs |
| ApiStore.WrittenParses | api/server.py:131-213 | a document the store wrote parses to the record it was written from |
| ApiStore.NextEvent | api/server.py:196-203 | the new event's id is one past the record's event count, and its data is `{}` when none is given |
| ApiStore.AppendKeepsSequential | api/server.py:189-209 | appending keeps event ids exactly 1..N and leaves earlier events as they were |
| ApiStore.StatusKeepsEvents | api/server.py:172-187 | a status change keeps the event list; COMPLETED without an error leaves `error` None, FAILED without a result leaves `result` None |
| ApiStore.JobStore.constructor | api/server.py:124-144 | the loop over the root's entries builds exactly `Loaded(entries)`, with every record under its own id |
| ApiStore.JobStore.CreateJob | api/server.py:148-166 | a pending record with `created_at == updated_at`, no events, result or error, stored under the fresh id, with its request and status documents written |
| ApiStore.JobStore.GetJob | api/server.py:168-170 | the stored record for a known id, None otherwise |
| ApiStore.JobStore.UpdateStatus | api/server.py:172-187 | `KeyError` and no change for an unknown id; otherwise status, `updated_at`, `error` and `result` replaced, events, request and creation time kept, and the document rewritten |
| ApiStore.JobStore.AppendEvent | api/server.py:189-218 | `KeyError` and no change for an unknown id; otherwise the event numbered `len+1` is appended after the old events, its timestamp becomes `updated_at`, and the document is rewritten |
| ApiBroker.RemoveFirst | api/server.py:239-240 | `list.remove(x)` drops exactly one occurrence of a present `x` and changes nothing otherwise |
| ApiBroker.RemoveFirstNoDup | api/server.py:239-240 | on a list without repeats, removing `x` leaves no `x` and no repeats |
| ApiBroker.Unsubscribed | api/server.py:234-242 | an unknown job or empty list is a no-op; otherwise the queue leaves the job's list, the entry goes when the list empties, and other jobs are untouched |
| ApiBroker.UnsubscribeKeepsWellFormed | api/server.py:234-242 | unsubscribing leaves no empty list and no repeated queue, and the queue is gone from its job's list |
| ApiBroker.SubscribeUnsubscribe | api/server.py:228-242 | unsubscribing the queue `subscribe` just appended restores the subscriber map |
| ApiBroker.UnsubscribeOnly | api/server.py:234-242 | unsubscribing a job's only queue drops the job's entry |
| ApiBroker.UnsubscribeLast | api/server.py:234-242 | unsubscribing the last-appended queue of a longer list restores the earlier list |
| ApiBroker.RemoveFirstLast | api/server.py:239-240 | removing a fresh queue appended at the end restores the list |
| ApiBroker.EventBroker.constructor | api/server.py:224-226 | no subscribers and no queues |
| ApiBroker.EventBroker.Subscribe | api/server.py:228-232 | a new empty queue, appended to the job's list (`setdefault(...).append`) |
| ApiBroker.EventBroker.Unsubscribe | api/server.py:234-242 | the subscriber map becomes `Unsubscribed(...)`, queue contents untouched |
| ApiBroker.EventBroker.Publish | api/server.py:244-248 | the event lands once in each queue registered for the job at publish time and in no other queue |
| ApiOrchestrator.AppendAllEvents | api/server.py:189-209 | a series of `append_event` calls adds one event per call, numbered on from the last, and changes nothing else but `updated_at` |
| ApiOrchestrator.FinishedEvents | api/server.py:642-669 | `_run_job` appends the started event, the progress events and the terminal event after the old ones, and keeps id, request and creation time |
| ApiOrchestrator.RunJobLifecycle | api/server.py:642-669 | for an existing job: ids stay 1..N, old events unchanged, the first new event announces RUNNING, exactly the last is terminal, and the job is COMPLETED with the result and no error exactly when the collaborator returned, else FAILED with `"<Class>: <msg>"` and no result |
| ApiOrchestrator.RunEventsShape | api/server.py:642-669 | the appended events are numbered on from `n`, RUNNING first, terminal last and nowhere before |
| ApiOrchestrator.EmitEvent | api/server.py:344-349 | `KeyError` and no change for an unknown job; otherwise the event is appended to the history and its dict is put once into each of the job's queues and returned |
| ApiOrchestrator.SubmitJob | api/server.py:673-681 | a pending record is created and its "Job created" status event (id 1) is appended and published |
| ApiOrchestrator.EmitAll | api/server.py:351-357 | a series of emissions appends its events in order and publishes their dicts in the same order |
| ApiOrchestrator.Conclude | api/server.py:655-669 | the final status with `result` or `error` is recorded, then the terminal event is appended and published |
| ApiOrchestrator.RunJob | api/server.py:642-669 | nothing happens for an unknown job; otherwise the record ends as `Finished` says and every appended event is published, in order, to the job's subscribers |
| ApiStream.FormatSse | api/server.py:324-330 | every frame ends with the blank line that terminates an event-stream event |
| ApiStream.MaxId | api/server.py:744-747 | the high-water mark is at least its start and at least every replayed id |
| ApiStream.Replay | api/server.py:744-747 | one frame per recorded event, in order |
| ApiStream.RunLinesAppend | api/server.py:324-330 | reading two runs of lines in turn is reading their concatenation (reader of the event-stream format) |
| ApiStream.TailDelivery | api/server.py:748-765 | the tail sends only events newer than its starting mark (or without an id), in strictly increasing id order, and nothing after a terminal status event |
| ApiStream.KeepAliveFirst | api/server.py:752-754 | a keep-alive in front of the rest of the tail keeps those three properties |
| ApiStream.FrameFirst | api/server.py:755-765 | a non-terminal event above the mark, sent before the rest of the tail, keeps those three properties |
| ApiStream.MergeDelivery | api/server.py:739-765 | the history is replayed as it is, then only events newer than all of it or without an id, in strictly increasing id order, ending at the first terminal event |
| ApiStream.ReplayDoesNotEnd | api/server.py:743-754 | a terminal event in the replayed history does not end the stream: timeouts still yield keep-alives |
| ApiStream.TwoEventsThenIdle | api/server.py:748-765 | two fresh live events and a timeout yield exactly those two frames and one keep-alive |
| ApiStream.DuplicateDropped | api/server.py:758-760 | a live event repeating a replayed id is not sent again |
| ApiStream.Chunks | api/server.py:739-765 | one text chunk per output |
| ApiStream.OutTextLines | api/server.py:324-330 | an output's text is its lines joined by LF and closed by a blank line |
| ApiStream.FrameText | api/server.py:324-330 | an event's frame is its `id:`, `event:` and `data:` lines, with the dict's JSON as data |
| ApiStream.FlattenChunks | api/server.py:739-765 | the whole stream text is all outputs' lines joined by LF |
| ApiStream.StreamLinesSingle | api/server.py:324-330 | no line of the stream contains a line break when event names do not |
| ApiStream.OutLinesSingle | api/server.py:324-330 | the lines of one output hold no line break |
| ApiStream.KeepAliveRead | api/server.py:753 | a reader sees nothing for the keep-alive comment |
| ApiStream.FrameSteps | api/server.py:324-330 | each line of a frame sets the reader's id, type and data buffers, and the blank line dispatches the event |
| ApiStream.BlankLineRead | api/server.py:330 | the blank line ending a frame dispatches the buffered event |
| ApiStream.FrameLinesRead | api/server.py:324-330 | a frame's four lines dispatch exactly that event and leave the buffers empty |
| ApiStream.FrameRead | api/server.py:324-330 | each output is read back as what the client should see of it |
| ApiStream.StreamRead | api/server.py:739-765 | reading the stream's lines gives the client view of all outputs, in order |
| ApiStream.StreamRoundTrip | api/server.py:739-765 | a client parsing the generated text dispatches exactly the sent events, in order, with their JSON as data, name as type and id as last event ID; keep-alives dispatch nothing |
| ApiStream.ChunksAppend | api/server.py:739-765 | the chunks of two output runs are the chunks of each, in order |
| ApiStream.ReplayHistory | api/server.py:744-747 | the replay loop yields the frames of the history and ends with its high-water mark |
| ApiStream.TailQueue | api/server.py:748-765 | the tailing loop yields exactly the chunks of `Tail` |
| ApiStream.TailAt | api/server.py:748-765 | one turn of the tailing loop, as `Tail` describes it |
| ApiStream.StreamHasNoCarriageReturn | api/server.py:324-330 | the stream text holds no carriage return, so its lines are its LF-separated pieces |
| ApiStream.EventGenerator | api/server.py:739-765 | the generator yields exactly `Merge(history, live)` and, by unsubscribing on every exit, leaves the subscriber map as it was |
| ApiStream.MaxIdSnoc | api/server.py:746 | the mark after one more event is the larger of the mark and the event's id |
| ApiArchive.Suffix | api/server.py:391 | `archive_path.suffix` is empty or a dot followed by dot-free text that ends the name and is shorter than it |
| ApiArchive.Suffixes | api/server.py:389 | `archive_path.suffixes` is empty for a name ending in a dot |
| ApiArchive.SuffixesDotted | api/server.py:389 | every suffix is a dot followed by dot-free text |
| ApiArchive.SuffixesOfParts | api/server.py:389 | for a name of dot-free parts joined by dots, the suffixes are the parts after the first, each with its dot |
| ApiArchive.SuffixAfter | api/server.py:391 | the suffix is the text from the last dot when that dot is neither first nor last |
| ApiArchive.OnePartName | api/server.py:389-390 | a stem with one dotted suffix has that suffix as suffix, only suffix and lookup key |
| ApiArchive.TwoPartName | api/server.py:389-390 | a stem with two dotted suffixes has the last one as suffix and both together as lookup key |
| ApiArchive.TarMode | api/server.py:395-404 | the `tar_modes` table maps only to `r:`, `r:gz`, `r:bz2` or `r:xz` |
| ApiArchive.ArchiveExtractor | api/server.py:387-411 | zip exactly when the last suffix is `.zip`; otherwise the tar mode of the joined last two suffixes, falling back to the last suffix; `ValueError("Unsupported archive format: <suffix>")` exactly when the name is not a zip and neither key is in the table |
| ApiArchive.OnePartSelection | api/server.py:387-411 | for a plain name with one suffix, that suffix alone decides zip, tar mode or refusal |
| ApiArchive.ZipSelected | api/server.py:391-394 | `name.zip` is opened as a zip |
| ApiArchive.TgzSelected | api/server.py:395-406 | `name.tgz` is opened with `r:gz` |
| ApiArchive.TarGzSelected | api/server.py:389-406 | `name.tar.gz` is opened with `r:gz` through the two-suffix key |
| ApiArchive.CompressedFileRefused | api/server.py:405-410 | a bare `name.gz` is refused |
| ApiArchive.VersionedTgz | api/server.py:405-408 | `name.1.2.tgz`-style names fall back to the last suffix and open with `r:gz` |
| ApiArchive.Fallback | api/server.py:405-410 | when the two suffixes together name no mode, the last suffix alone decides |
| ApiArchive.VersionedSuffixes | api/server.py:389-391 | a stem, a dotted part and an extension give the extension as suffix and both parts as lookup key |
| ApiArtifacts.ArtifactsGate | api/server.py:697-708 | 404 exactly for an unknown job, 409 exactly for a job that has not completed, and success exactly when a completed job's nonempty result names a repository map that is on disk |
| ApiArtifacts.LifecycleGates | api/server.py:642-708 | a job `_run_job` completed with a result naming an existing map is served; a failed job and a just-created job answer 409 |
| ApiArtifacts.MetaOf | api/server.py:710-711 | an entry is read exactly when it is a dict with a string `path`; otherwise `chunk_meta["path"]` raises |
| ApiArtifacts.ChunkView | api/server.py:714-720 | a chunk is shown exactly when its entry has `index`, `token_count` and `file_count`; otherwise `KeyError` |
| ApiArtifacts.ChunkMetas | api/server.py:709-711 | `result.get("chunks", [])` is read exactly when it is iterable and every item it yields is a dict with a string `path`, one entry per item in order |
| ApiArtifacts.KeptChunks | api/server.py:709-720 | no more chunks shown than the result lists |
| ApiArtifacts.KeptChunksFail | api/server.py:709-720 | the listing fails exactly when a chunk whose file exists lacks one of the copied keys |
| ApiArtifacts.KeptChunksFromDisk | api/server.py:709-720 | each shown chunk is a listed chunk whose file exists, with that file's text |
| ApiArtifacts.KeptChunksAll | api/server.py:709-720 | when every chunk file exists and every entry has its keys, every chunk is shown, in order |
| ApiArtifacts.KeptChunksNone | api/server.py:709-720 | when no chunk file exists, no chunk is shown, whatever the entries hold |
| ApiArtifacts.MalformedChunksFail | api/server.py:709-711 | a non-iterable `chunks` value, or a list item without a string `path`, makes the listing fail |
| ApiArtifacts.CollectChunks | api/server.py:709-720 | the loop, stopping at the first raise, computes exactly `KeptChunks` |
| ApiArtifacts.Objects | api/server.py:721-728 | one JSON object per entry, in order |
| ApiArtifacts.GetJobArtifacts | api/server.py:697-729 | the gate's error when it refuses; 500 when the result's chunk list cannot be read; otherwise exactly `Ok` with the map's text, the chunks read from the result whose files exist, and the result's warnings (default `[]`), estimator and totals (default null) |
| ApiRequests.VerifyApiKey | api/server.py:333-336 | a request passes exactly when no nonempty key is configured or its key equals the configured one; otherwise 401 "Invalid API key" |
| ApiRequests.ParseSource | api/server.py:631-639 | a parsed source's `type` entry is that kind's tag; anything else is `ValueError("Unsupported source type: <value>")` |
| ApiRequests.ParseTagged | api/server.py:631-639 | a source tagged with a kind's type parses as that kind |
| ApiRequests.UntypedSourceRefused | api/server.py:631-639 | a source without a type is refused naming `None` |
| ApiRequests.NormalizeExtension | api/server.py:456-459 | a requested extension is lowercased and starts with a dot; it is the lowercased text itself exactly when that already starts with a dot, otherwise that text with one dot added in front |
| ApiRequests.NormalizeExtensionIdempotent | api/server.py:456-459 | normalising an extension twice changes nothing more |
| ApiRequests.BuildProcessingOptions | api/server.py:443-474 | the options are `WithPayload(Defaults(), payload)` |
| ApiRequests.ApplyPayload | api/server.py:450-466 | each truthy field of the payload extends or replaces its option, as `WithPayload` says |
| ApiRequests.ExtendPatterns | api/server.py:451-454 | a truthy pattern list is expanded and appended; otherwise the option is kept |
| ApiRequests.AddExtensions | api/server.py:455-460 | the loop adds exactly the normalised requested extensions |
| ApiRequests.NormalizedStep | api/server.py:456-460 | one more loop step adds one normal form |
| ApiRequests.NormalizedSnoc | api/server.py:456-460 | one more extension adds its normal form |
| ApiRequests.PayloadExtendsBase | api/server.py:443-474 | a request only adds: the default patterns stay first, default extensions and names stay, a size limit is a nonzero request value or inherited, and every requested extension admits files carrying it in any case |
| ApiRequests.EmptyPayloadKeepsBase | api/server.py:443-474 | a missing payload, or one whose fields are unset or empty, gives the defaults back |
| ServiceFilter.ToPosixPath | repo2gpt/service.py:165-166 | same length, no backslash left, every other character kept in place |
| ServiceFilter.AddPattern | repo2gpt/service.py:182-184 | appends a nonempty pattern not yet present and nothing else; keeps the list free of duplicates |
| ServiceFilter.PatternBody | repo2gpt/service.py:169-178 | a line that yields patterns has a nonempty body without a leading slash |
| ServiceFilter.NormalizePatternVariants | repo2gpt/service.py:169-201 | blank, comment and slash-only lines yield nothing; any other line yields exactly its directory or file variants, none empty, none rooted, none repeated; the `["**"]` branch is never reached |
| ServiceFilter.RootAnchoredDirectory | repo2gpt/service.py:169-195 | `/name/` expands to `name/**`, `name/`, `**/name/**`, `**/name/` |
| ServiceFilter.ExpandedConcat | repo2gpt/service.py:204-208 | expanding two pattern lists one after the other is concatenating their expansions |
| ServiceFilter.ExpandPatterns | repo2gpt/service.py:204-208 | the loop returns each line's patterns in input order |
| ServiceFilter.NormalizeRelativePath | repo2gpt/service.py:333-339 | `""` and `"."` give the root; otherwise the posix path with one leading `./` removed, and never a backslash |
| ServiceFilter.JoinRelativePath | repo2gpt/service.py:342-347 | under the root the posix name alone, otherwise base and name joined by one slash |
| ServiceFilter.JoinSegments | repo2gpt/service.py:342-347 | a joined path's segments are the base's segments followed by the name |
| ServiceFilter.MatchesPatterns | repo2gpt/service.py:309-313 | true exactly when some pattern matches the path |
| ServiceFilter.SkipDirectoryRules | repo2gpt/service.py:350-359 | the root is never skipped; a denylisted segment anywhere skips; otherwise skipped exactly when an ignore pattern matches |
| ServiceFilter.Extension | repo2gpt/service.py:362-363 | the extension is empty or a dot-led suffix of the name with no further dot or slash |
| ServiceFilter.IncludePrecedence | repo2gpt/service.py:378-386 | an ignore match excludes; else an include match admits; else `allow_non_code` admits; else kept exactly for code files |
| ServiceFilter.CodeFileKeptBesideIncludes | repo2gpt/service.py:378-386 | an unignored file with an allowed extension is kept even when no include pattern matches it |
| ServiceFilter.PythonFileIsCode | repo2gpt/service.py:362-366 | `app.py` has extension `.py` and is a code file under the default options |
| ServiceFilter.TokenCount | repo2gpt/service.py:270-279 | zero exactly when counting is disabled or the text is empty; otherwise the length divided by four, rounded up |
| ServiceChunks.ChunkLimit | repo2gpt/service.py:770 | a limit is in force exactly when `chunk_token_limit` is a positive number, and then it is that number |
| ServiceChunks.GenerateChunks | repo2gpt/service.py:763-843 | the loop, with `finalize_chunk` and the closing append, returns exactly `Chunked(blocks, limit)` |
| ServiceChunks.AddFile | repo2gpt/service.py:834-840 | one kept file closes the open chunk exactly when a limit is in force, the chunk holds tokens and the file would exceed the limit; then the file joins the open chunk |
| ServiceChunks.FinalizeChunk | repo2gpt/service.py:777-790 | the open group becomes the next chunk, numbered after the existing ones |
| ServiceChunks.GroupsPartition | repo2gpt/service.py:763-843 | the groups split the kept files in order; only the last may be empty, and only when no file was kept |
| ServiceChunks.GroupsGreedy | repo2gpt/service.py:834-836 | a new chunk is opened only under a limit, after a chunk holding tokens, by a file that does not fit beside them |
| ServiceChunks.GroupsBounded | repo2gpt/service.py:834-836 | a chunk exceeds the limit only when the files before its last one count no tokens |
| ServiceChunks.NoLimitOneGroup | repo2gpt/service.py:770-840 | without a limit all files form one group |
| ServiceChunks.TokenlessOneGroup | repo2gpt/service.py:834-836 | when no file counts a token, all files form one group whatever the limit |
| ServiceChunks.SummariesCover | repo2gpt/service.py:777-843 | the chunks' contents concatenate to the groups' text |
| ServiceChunks.ChunksCover | repo2gpt/service.py:763-843 | at least one chunk, numbered 1..n, whose contents concatenate to every kept file's text in walk order |
| ServiceChunks.ChunksWithoutLimit | repo2gpt/service.py:770-843 | without a positive limit the snapshot is a single chunk holding every file, its tokens and its count |
| ServiceChunks.ChunksBeforeLastHoldTokens | repo2gpt/service.py:834-836 | every chunk but the last holds at least one file and one token |
| ServiceChunks.TokensConcat | repo2gpt/service.py:838-840 | token counts and texts of consecutive files add up |
| ServiceChunks.Counted | repo2gpt/service.py:832-833 | each kept file's block carries the fallback estimate of its text |
| ServiceChunks.CollectRepoSnapshot | repo2gpt/service.py:856-892 | the map writer is called first with the map text, then the chunk writer once per chunk in index order; the snapshot holds the map, `Chunked` of the counted files, the warnings and the estimator (disabled by default) |
| ServiceChunks.DisabledEstimatorOneChunk | repo2gpt/service.py:270-272 | with the estimator disabled the snapshot is one chunk whatever the limit |
| Cli.OrderedUnique | main.py:223-230 | the loop returns `Unique(values)` |
| Cli.UniqueSpec | main.py:223-230 | the result repeats nothing, holds no empty value, and holds exactly the nonempty input values |
| Cli.UniqueOrder | main.py:223-230 | values keep the order of their first occurrences |
| Cli.UniqueExtends | main.py:223-230 | de-duplicating a longer list keeps the shorter list's result as a prefix |
| Cli.UniqueOfDistinct | main.py:223-230 | a list without repeats or empty values is returned unchanged |
| Cli.FirstIndex | main.py:223-230 | the first position at which a value occurs |
| Cli.PatternBody | main.py:233-239 | a pattern body has no backslash left |
| Cli.NormalizeFileShape | main.py:233-246 | blank and comment lines give nothing; a file pattern gives itself alone, without a `**/` form |
| Cli.NormalizeDirectoryShape | main.py:240-245 | a directory line gives nothing when only slashes remain, otherwise exactly the four forms of its base, without repeats |
| Cli.DirectoryFormsUnique | main.py:243-244 | the four forms are all kept unless two coincide, and then the later one is dropped |
| Cli.LoneSlash | main.py:233-246 | a lone `/` yields the empty pattern, which `_ordered_unique` later drops |
| Cli.ExpandPatterns | main.py:249-253 | the loop returns each line's patterns in input order |
| Cli.ExpandedConcat | main.py:249-253 | expanding two pattern lists one after the other is concatenating their expansions |
| Cli.FilePatternDiffers | main.py:233-246 | a plain file pattern stays unanchored here, while the service also adds its `**/` form |
| Cli.SkipDirectoryRules | main.py:316-325 | the root is never skipped; a denylisted segment skips; the tool's denylist is a strict superset of the service's, so it skips every directory the service skips |
| Cli.IncludeAgreesWithService | main.py:344-352 | the tool and the service decide every file alike |
| Cli.CommonPrefix | main.py:355-371 | the longest common prefix of two segment lists |
| Cli.Repeat | main.py:355-371 | `k` copies of a segment |
| Cli.ResolveSkipPaths | main.py:355-369 | the loop returns exactly the skip entries of the outputs |
| Cli.InsideRel | main.py:361-362 | an output below the tree has its remaining segments as its relative path, the tree itself `.` |
| Cli.SameDirDropped | main.py:355-369 | an output naming the tree itself adds nothing |
| Cli.OutsideDropped | main.py:355-369 | an output outside the tree adds nothing |
| Cli.InsideKept | main.py:355-369 | an output below the tree whose first segment does not start with `..` is skipped under its relative path |
| Cli.SkippedInside | main.py:355-369 | every skipped output lies strictly below the tree |
| Cli.DotDotNameDropped | main.py:364 | an output inside the tree under a directory such as `..cache` is wrongly not skipped |
| Cli.InsideKeptIntended | main.py:355-369 | with the intended test every output below the tree is skipped under its relative path |
| Cli.StaysInside | main.py:364 | a relative path whose first segment is not `..` does not leave the tree |
| Cli.OutsideDroppedIntended | main.py:355-369 | with the intended test an output outside the tree still adds nothing |
| Cli.BuildProcessingOptions | main.py:379-416 | the options are `OptionsFrom(args)` |
| Cli.OptionsSpec | main.py:379-416 | the patterns hold every nonempty pattern of their sources once each and nothing else, the defaults first; default and requested extensions (normalised) are allowed; a size limit is given exactly when the argument is positive |
| Cli.OptionsKeepSourceOrder | main.py:379-416 | every ignore pattern comes from a source, in order of first appearance |
| McpUrl.Utf8Char | integrations/mcp/server.py:534 | one to four bytes per character, a single byte exactly for ASCII, and then the code point itself |
| McpUrl.Escape | integrations/mcp/server.py:534 | a `%XX` escape is three characters, all `%` or unreserved |
| McpUrl.Quote | integrations/mcp/server.py:534 | the encoded token holds only `%` and unreserved characters, so no `@`, `:` or `/` |
| McpUrl.HexRoundTrip | integrations/mcp/server.py:534 | a written hexadecimal digit reads back as its value |
| McpUrl.EscapesDecode | integrations/mcp/server.py:534 | escaped bytes decode back to themselves |
| McpUrl.QuoteDecodes | integrations/mcp/server.py:534 | decoding the encoded token gives exactly the token's UTF-8 bytes |
| McpUrl.ApplyGithubPat | integrations/mcp/server.py:525-536 | only the host part may change, and only to the encoded token, `@` and the original host part |
| McpUrl.GithubPatApplied | integrations/mcp/server.py:525-536 | the URL changes exactly when a nonempty token is given, the scheme is http or https and the lower-cased host part mentions `github.com`; then the text before the first `@` decodes to the token and the original host part follows |
| McpRecords.ErrorResponseShape | integrations/mcp/server.py:34-51 | an error response is a JSON-RPC 2.0 error object with the request's id, code and message, and `data` exactly when the error has nonempty data |
| McpRecords.DescriptorShape | integrations/mcp/server.py:66-76 | a descriptor holds id, name and media type, the description only when it is a nonempty string, the metadata only when nonempty, and never the content |
| McpRecords.PayloadShape | integrations/mcp/server.py:78-81 | the payload is the descriptor plus the content, every other key unchanged |
| McpRecords.PresentStored | integrations/mcp/server.py:171-174 | every artifact `describe_job` gathers is the stored artifact under its own id |
| McpRecords.PresentLookup | integrations/mcp/server.py:98-110 | the lookup built from the gathered artifacts finds exactly the stored artifacts of the listed ids |
| McpRecords.LinkedAgree | integrations/mcp/server.py:106-110 | lookups that agree on the listed ids give the same descriptors |
| McpRecords.DescribeFromStore | integrations/mcp/server.py:98-110 | a job's descriptor lists the descriptors of its stored artifacts in `artifact_ids` order, skipping ids without one |
| McpRecords.LinkedAll | integrations/mcp/server.py:106-110 | when every listed id is stored, each gets its descriptor, in order |
| McpRecords.ChunkNameIndex | integrations/mcp/server.py:455 | a chunk artifact name starts with `chunk-`, has ten characters for indices below 10000, and reads back as the index |
| McpRecords.ChunkNamesDistinct | integrations/mcp/server.py:455 | distinct chunk indices give distinct artifact names |
| McpRecords.ChunkTokensOfSummaries | integrations/mcp/server.py:470 | the chunks' token counts add up to the tokens of all files chunked |
| McpRecords.TokenSummaryTotals | integrations/mcp/server.py:467-477 | `chunkTokens` is the total over all chunked files and `chunkCount` the number of chunks |
| McpStore.StatusUpdates | integrations/mcp/server.py:127-144 | a status change keeps an error or token summary once set, a bare status change touches nothing else, repeating a change changes nothing more, and id, creation time, request and artifacts never change |
| McpStore.InsertByAge | integrations/mcp/server.py:182-183 | placing a job adds exactly that job |
| McpStore.NewestFirstSorted | integrations/mcp/server.py:182-183 | the listing is sorted newest first and is a permutation of the stored jobs |
| McpStore.Limited | integrations/mcp/server.py:184 | `min(limit, n)` jobs from the front for a nonnegative limit, none for a negative one |
| McpStore.ListingSpec | integrations/mcp/server.py:182-185 | as many jobs as the limit allows, newest first, each stored, and no job left out is newer than one listed |
| McpStore.FreshAfterDraw | integrations/mcp/server.py:148-162 | drawing one id for the new entries keeps the remaining ids unused |
| McpStore.LinkedAfterRegister | integrations/mcp/server.py:146-169 | registering an artifact for a stored job keeps every link between jobs and artifacts |
| McpStore.AfterCreate | integrations/mcp/server.py:120-125 | a new job without artifacts keeps the store keyed and linked |
| McpStore.JobStore.constructor | integrations/mcp/server.py:117-119 | an empty, valid store |
| McpStore.JobStore.Jobs | integrations/mcp/server.py:182 | the stored jobs in insertion order, each under its own id |
| McpStore.JobStore.JobsListed | integrations/mcp/server.py:182 | the stored jobs in insertion order are the jobs `Listed` under the insertion order |
| McpStore.JobStore.CreateJob | integrations/mcp/server.py:120-125 | a pending record without warnings, artifacts, summary or error under a fresh id, added at the end; nothing else changes |
| McpStore.JobStore.UpdateStatus | integrations/mcp/server.py:127-144 | -32000 and no change for an unknown job; otherwise only that record changes, as `WithStatus` says |
| McpStore.JobStore.RegisterArtifact | integrations/mcp/server.py:146-169 | -32000 and no change for an unknown job; otherwise the artifact is stored under a fresh id, belongs to the job and ends its artifact list |
| McpStore.JobStore.DescribeJob | integrations/mcp/server.py:171-174 | -32000 for an unknown job; otherwise the job's descriptor listing every artifact the job lists, in order |
| McpStore.JobStore.GetArtifact | integrations/mcp/server.py:176-180 | the stored artifact under that id, or -32001 "Unknown artifact" |
| McpStore.JobStore.ListJobs | integrations/mcp/server.py:182-185 | the descriptors of the listing `ListingSpec` describes |
| McpStore.JobStore.DescribeStored | integrations/mcp/server.py:185 | `describe_job` of a stored job never fails |
| McpStore.JobStore.StoredJob | integrations/mcp/server.py:182-185 | every listed job is the record stored under its id |
| McpTools.ReplyShape | integrations/mcp/server.py:225-241 | every answer is a JSON-RPC 2.0 response with the request's id: the result for a handler that returned, the error object for one that raised `MCPError`, none for one that crashed |
| McpTools.PyInt | integrations/mcp/server.py:366-369 | `int()` keeps integers, reads booleans as 0 and 1, and refuses null, lists and dicts |
| McpTools.PyIntReadsDecimal | integrations/mcp/server.py:366-369 | the decimal text of any integer reads back as that integer |
| McpTools.StripUnspaced | integrations/mcp/server.py:366-369 | a string without surrounding whitespace is its own `strip()` |
| McpTools.OptionalInt | integrations/mcp/server.py:365-369 | a missing or null argument gives none; one `int()` refuses raises -32602 naming the argument; anything else gives its integer |
| McpTools.Kept | integrations/mcp/server.py:480 | only truthy items are kept |
| McpTools.Texts | integrations/mcp/server.py:480-483 | the strings of a list of string items, in order |
| McpTools.PatternList | integrations/mcp/server.py:370-371 | a falsy argument gives no patterns; a truthy value crashes, rather than raising `MCPError`, exactly when it is not iterable or its truthy items are not all strings; otherwise the result is `expand_patterns` of those items in order |
| McpTools.PatternListOfStrings | integrations/mcp/server.py:479-483 | a list of strings expands as `expand_patterns` expands all of it |
| McpTools.ExtensionList | integrations/mcp/server.py:372 | a falsy argument gives no extensions; a truthy value crashes exactly when it is not iterable or holds a non-string item; otherwise the result is each given extension lowercased, in order |
| McpTools.ParseProcessArgs | integrations/mcp/server.py:362-380 | a falsy repository raises -32602 "'repository' is required" first, then a chunk limit `int()` refuses; every raise is -32602; on success the repository is truthy and the chunk limit is none exactly when not given |
| McpTools.ParseLists | integrations/mcp/server.py:370-380 | a crash exactly when a pattern or extension list is malformed, else -32602 exactly when `int()` refuses `maxFileBytes`; on success the patterns and extensions are `PatternList`'s and `ExtensionList`'s results, `maxFileBytes` is `OptionalInt`'s, and the other arguments are read as the source reads them, the call's token winning when truthy |
| McpTools.RepositoryOnly | integrations/mcp/server.py:362-380 | a call naming only a repository gets no ref, no limits, no extra patterns or extensions, code files only and the configured token |
| McpTools.McpExtensionAgrees | integrations/mcp/server.py:500-502 | the MCP server normalises an extension exactly as the HTTP API does |
| McpTools.McpOptionsLikeApi | integrations/mcp/server.py:486-509 | for the same requested list the MCP options allow exactly the extensions the HTTP API would |
| McpTools.BuildProcessingOptions | integrations/mcp/server.py:486-509 | the options are the defaults with the requested patterns appended, the requested extensions added and the switches as given |
| McpTools.ExtendOptions | integrations/mcp/server.py:495-509 | the copied defaults extended as `McpOptions` says |
| McpTools.AddExtensions | integrations/mcp/server.py:500-502 | the loop adds exactly the normalised requested extensions |
| McpTools.ExtensionsSnoc | integrations/mcp/server.py:500-502 | one more extension adds exactly its normal form |
| McpTools.Clamp | integrations/mcp/server.py:431 | the limit is clamped to 1..50, kept when already in range |
| McpTools.RecentLimit | integrations/mcp/server.py:425-431 | a missing limit is 10; one `int()` refuses raises -32602 "limit must be an integer"; otherwise the result is between 1 and 50 |
| McpTools.RecentLimitClamps | integrations/mcp/server.py:425-431 | an integer or decimal-string limit is clamped, not refused; a null limit is refused |
| McpTools.ToolNamesListed | integrations/mcp/server.py:262-360 | the tools `listTools` advertises are the ones `callTool` dispatches, in the same order |
| McpTools.LimitSchemaEnforced | integrations/mcp/server.py:320-325 | the range and default advertised for `limit` are the ones `listRecentJobs` enforces |
| McpTools.InitializeReports | integrations/mcp/server.py:243-260 | `initialize` names the server and reports a token or key as configured exactly when it is a nonempty string, and the model as given |
| McpServer.SnapshotLayout | integrations/mcp/server.py:442-465 | a snapshot is stored as the `repo-map` artifact and then one `chunk-NNNN` artifact per chunk in chunk order, each with its content, belonging to the job, under distinct consecutive fresh ids |
| McpServer.RegisteredHolds | integrations/mcp/server.py:163 | after registering artifacts with distinct ids each one is stored under its id |
| McpServer.RegisteredFront | integrations/mcp/server.py:442-465 | registering the map and then the chunks is registering the whole list |
| McpServer.FrontThenChunks | integrations/mcp/server.py:442-465 | storing the map and then the chunks gives the artifacts, descriptors and job links of the whole list |
| McpServer.AttachTwice | integrations/mcp/server.py:168 | appending ids to a job twice is appending them all at once |
| McpServer.StoredDescriptors | integrations/mcp/server.py:442-465 | once stored, a snapshot's artifacts are found by the job's new ids and give back exactly the descriptors that were returned |
| McpServer.Assign | integrations/mcp/server.py:416 | after `payload[key] = value` the key reads the new value, and the keys are the old ones or the old ones plus that key |
| McpServer.AssignArtifacts | integrations/mcp/server.py:415-416 | replacing a job descriptor's artifacts gives the descriptor of the same job around the new list |
| McpServer.Lifecycle | integrations/mcp/server.py:390-420 | a processed job goes from pending to running to completed (no error, the snapshot's warnings, summary and artifacts) or failed (the error's text, no artifacts), keeping its id, creation time and request |
| McpServer.ToolReply | integrations/mcp/server.py:359-360 | a tool's result is wrapped with its name; errors and crashes pass through |
| McpServer.RecentJobsBounds | integrations/mcp/server.py:425-433 | `listRecentJobs` lists at least one job when any is stored and never more than fifty, newest first, each stored, and the answer is their descriptors |
| McpServer.ArtifactAnswerSpec | integrations/mcp/server.py:435-440 | `getArtifact` answers exactly when the id is a nonempty string naming a stored artifact, with that artifact's payload, content included; its errors are -32602 and -32001 |
| McpServer.RoutedSpec | integrations/mcp/server.py:225-241 | apart from `callTool` a request never crashes; a wrong version is -32600 first; the answer is the description or the tool list exactly for `initialize` and `listTools`; otherwise -32601 |
| McpServer.ReadOnlyCallSpec | integrations/mcp/server.py:346-360 | only the advertised tools answer, with their name next to the result; another name is -32601, a missing one -32602 |
| McpServer.Server.constructor | integrations/mcp/server.py:216-218 | a server with the given settings, its own tool descriptions `Docs()` and an empty job store |
| McpServer.RespondsUnderId | integrations/mcp/server.py:225-241 | every response carries its request's id and version 2.0, and only an object request gets one |
| McpServer.ReadOnlyBatch | integrations/mcp/server.py:220-223 | in a batch without a `processRepo` call every item is answered against the store as it was before the batch |
| McpServer.ProcessRepoCallOutcome | integrations/mcp/server.py:350-354 | a `processRepo` call answers with its name and result or raises -32602, -32010 or -32603; it leaves the store alone unless its arguments are read, and once they are read it does not crash |
| McpServer.ProcessRepoLists | integrations/mcp/server.py:390-391 | once a `processRepo` call has read its arguments the store lists the new job under its id after every job it listed before, so a later `listRecentJobs` in the same batch sees it |
| McpServer.BegunThenRun | integrations/mcp/server.py:390-421 | after a job is begun and run it sits under the next id at the end of the insertion order as `Finished` leaves it, and the snapshot's artifacts are registered under the ids after it |
| McpServer.RunAnswer | integrations/mcp/server.py:400-421 | a snapshot answers with the finished job's descriptor and its artifacts' descriptors; a git failure raises -32010 "Failed to prepare repository: …"; any other failure raises -32603 "Failed to process repository" with the text as details |
| McpServer.Server.Handle | integrations/mcp/server.py:220-223 | a single request gets exactly `Step`'s response and leaves `Step`'s store; a list gets one response per item, in order, item k answered by `Step` at `clock(k)` on the store the items before it left, and the store ends as the last item left it; a crashing item aborts the list |
| McpServer.Server.HandleBatch | integrations/mcp/server.py:221-222 | the loop answers item k with `Step` of item k on the store the earlier items left, stops at the first crash, and ends with the store the last item left |
| McpServer.Server.HandleSingle | integrations/mcp/server.py:225-241 | response and new store are `Step`'s: the JSON-RPC reply under the request's id to `Answered` (-32600 for a wrong version, -32601 for an unknown method), to `ReadOnlyCall` on the stored jobs, or to `ProcessRepoCall` with the store it leaves; a non-object request crashes; only `processRepo` changes the store |
| McpServer.Server.Dispatch | integrations/mcp/server.py:228-238 | any request but `callTool` is answered as `Answered` says; a `callTool` with non-object params crashes, a read-only tool answers as `ReadOnlyCall` says, neither changing the store; `processRepo` answers and changes the store exactly as `ProcessRepoCall` says |
| McpServer.Server.CallTool | integrations/mcp/server.py:346-360 | params that are not an object crash; every tool but `processRepo` answers as `ReadOnlyCall` says without changing the store; `processRepo` answers and leaves the store as `ProcessRepoCall` says |
| McpServer.Server.CallProcessRepo | integrations/mcp/server.py:350-354 | arguments that are not an object crash without a change; otherwise answer and store are `ProcessRepoCall`'s: the tool's answer as `{"tool": "processRepo", "result": …}` or one of its error codes |
| McpServer.Server.CallReadOnly | integrations/mcp/server.py:346-360 | the answer is `ReadOnlyCall` of the stored jobs and artifacts |
| McpServer.Server.ListRecentJobs | integrations/mcp/server.py:425-433 | the answer is `RecentJobs` of the stored jobs |
| McpServer.Server.GetArtifactTool | integrations/mcp/server.py:435-440 | the answer is `ArtifactAnswer` of the stored artifacts |
| McpServer.Server.ProcessRepo | integrations/mcp/server.py:362-423 | answer and new store are `ProcessRepoStep`'s: arguments that fail the checks change nothing and raise -32602, or crash where reading them crashes; otherwise one job is added under a fresh id, the snapshot's artifacts are registered, the job is finished as `Finished` says, and the answer is its descriptor with the artifacts' descriptors or the mapped error (-32010 for git, -32603 otherwise) |
| McpServer.Server.ProcessParsed | integrations/mcp/server.py:382-421 | answer and new store are `ParsedStep`'s: the options are built, the job is created and set running (`Begun`), the repository is collected with the options, and `RunStep` finishes the job |
| McpServer.Server.Collect | integrations/mcp/server.py:394-399 | the work is the preparation step applied to `Collecting` of the arguments, with the options built from them |
| McpServer.Server.StartJob | integrations/mcp/server.py:390-391 | a running job is stored under a fresh id, after every older job, and nothing else changes: the store becomes `Begun` |
| McpServer.Server.RunJob | integrations/mcp/server.py:393-421 | answer and store are `RunStep`'s: a snapshot completes the job with its artifacts; a git failure or any other failure marks it failed with the message and raises -32010 or -32603 |
| McpServer.Server.CompleteJob | integrations/mcp/server.py:398-410 | the snapshot's artifacts are stored, the job completes with the snapshot's warnings and token summary, and the answer is its descriptor around the returned artifact descriptors |
| McpServer.Server.StoreSnapshotArtifacts | integrations/mcp/server.py:442-465 | the map and the chunks are registered in order under fresh ids, appended to the job, and their descriptors returned in that order |
| McpServer.Server.RegisterChunks | integrations/mcp/server.py:453-464 | the loop registers exactly the chunk artifacts, in chunk order, and returns their descriptors |
| JsonValues.EscapeChar | api/server.py:324-330 | `json.dumps` writes a character as itself exactly when it is printable ASCII other than a quote or backslash, and otherwise as a printable escape |
| JsonValues.Dumps | api/server.py:324-330 | the JSON text of any value holds no line break, so it fits on one `data:` line |
| JsonValues.Iterated | integrations/mcp/server.py:370-372 | lists, strings and dicts can be iterated; anything else raises |

## Left out

- File system and network I/O are not modelled. This covers the directory walk, file reads and the binary-file test, reading pattern files, writing `status.json`, archive download, base64 decoding and extraction, git clone and checkout, and removing workspaces. Directory contents, pattern-file lines and archive names are given as values.
- asyncio is not modelled: the locks, queues, `wait_for` timeouts, `to_thread` and `run_coroutine_threadsafe`. Each store or broker method is one atomic step. A queue is a sequence. A wait on a queue is an input event: received, timed out or disconnected.
- Where an event emitted from the worker thread lands relative to the terminal event is a scheduling question. The model takes the sequential order: progress events first, then the terminal event.
- The clock, `uuid4` and `os.urandom` are parameters. The HTTP API's job id is an argument of `CreateJob`. The MCP store draws ids from an injective stream.
- Glob matching (`PurePosixPath.match`) is a parameter. Every rule holds for any matcher.
- The tiktoken encoder path of `TokenEstimator.count` is a foreign library. Only the disabled and fallback estimates are modelled.
- The regex language analysers and the text of the repository map are not modelled. The snapshot hands the repository map on as an opaque string.
- The HTTP and framework layers are not modelled: FastAPI routing, pydantic validation and `StreamingResponse`. A request reaches the model as already-validated fields. Because a pydantic model is always truthy, `if payload:` in `_build_processing_options` is always taken.
- The CLI's argument parsing, clipboard helpers, clone and output writing are not modelled. `build_processing_options` receives its pattern-file lines and arguments as values.
- The CLI's `normalize_relative_path`, `join_relative_path` and `is_code_file` are the same code as the service's. The model uses the service's definitions for both.
- `MCPConfig.from_env` reads environment variables. The server receives the resulting configuration as a value.
- `_prepare_repository` is folded into the parameter `collect` of the MCP server, together with cloning and `collect_repo_snapshot`. The token injection `_apply_github_pat` it calls is modelled separately.
- The MCP server passes `maxFileBytes` into the processing options. The walk that would use it is not modelled.
- The tool descriptions and JSON schemas that `listTools` returns are written out in `McpTools.Docs` and returned as data. That each tool accepts exactly what its schema describes is proved only for the `limit` bounds of `listRecentJobs`.
- McpStore.JobStore.ListJobs: the result is proved sorted newest first and truncated. That the sort is stable, keeping jobs with equal `created_at` in insertion order, is not proved.
- McpServer.Server.ProcessRepo: the `except MCPError` branch of `_tool_process_repo` is not modelled. Nothing in the `try` block raises an `MCPError` once the arguments are parsed.
- ApiRecords.FromDict checks the types of the fields it reads: a non-string `id` or `error`, or a non-dict `request` or `result`, raises `TypeError`, so the loader skips the entry. `JobRecord.from_dict` does no type checks and loads such a record. The record types of the model hold typed fields, so such a record cannot be represented.
- ApiRecords.EventFromJson likewise refuses an events entry with a non-integer `id`, a non-string `event` or `message`, or a `data` that is null or not a dict, which `JobEvent(...)` accepts.
- ApiRecords.ParseDt keeps a timestamp as its text and accepts every string. `datetime.fromisoformat` raises `ValueError` on text that is not ISO 8601, and the loader then skips the entry; the model loads it. The ISO 8601 grammar that Python accepts is not modelled.
- Basics.Lower lowercases the ASCII letters only, where Python's `str.lower` maps every cased Unicode character. Its users inherit this: extension normalisation in the HTTP API, the MCP server and the command-line tool, the code-file test, and the `github.com` test of the token injection. For example, a requested extension `PŸ` and a file `a.pÿ`: the source allows `.pÿ` and keeps the file; the model allows `.pŸ` and drops it.
- ApiRequests.NormalizeExtension lowercases ASCII letters only (see `Basics.Lower`); a non-ASCII capital letter is kept.
- McpTools.ExtensionList lowercases ASCII letters only (see `Basics.Lower`); a non-ASCII capital letter is kept.
- JSON numbers are integers only. A floating-point argument, which `int()` would truncate, is not modelled.
- McpTools.PyInt: Python's `int()` is modelled for JSON integers, booleans and ASCII decimal strings with surrounding whitespace and an optional sign. Digit strings with underscores or non-ASCII digits, which Python accepts, are refused.
- JsonValues.PyStr: `str()` of a list or dict is rendered as its JSON text, not Python's `repr`.
- JsonValues.Get: duplicate keys in a JSON object resolve to the first occurrence.
- ServiceFilter.NormalizePatternVariants: the branch that yields `["**"]` is kept, but it is unreachable, because every leading `/` is stripped before it. The model proves that a lone `/` yields `[]`.
- Cli.ResolveSkipPaths models the code as written, including the `..` prefix test (see Findings). The intended rule is `Cli.SkipEntryIntended`, with its properties proved beside it. Nothing else in the model consumes the skip set.
- Paths given to `resolve_skip_paths` are segment lists after `os.path.abspath`. The `ValueError` that `relpath` raises for paths on different drives (main.py:360-363) is not modelled.

## Findings

| source | as written | input that shows it | evidently intended | confidence | as-written member | corrected member |
|---|---|---|---|---|---|---|
| main.py:364 | an output is left out of the skip set when its path relative to the tree starts with `..` | tree `/repo` and output `/repo/..cache/out.txt`: the relative path `..cache/out.txt` is inside the tree but is not skipped | only a relative path that is `..` or starts with `../` leaves the tree | not executed | Cli.DotDotNameDropped | Cli.InsideKeptIntended |
