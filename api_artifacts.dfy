/** The artifacts endpoint `get_job_artifacts`: the status gates and the
    listing of the chunk files that exist. The job directory is represented
    by which relative paths exist and what they read as. */
module ApiArtifacts {
  import opened Basics
  import opened JsonValues
  import opened ApiRecords
  import opened ApiStore
  import opened ApiOrchestrator
  import opened ApiRequests

  /** A completed job with a nonempty result naming a repository map that
      is on disk. */
  predicate ServesMap(rec: Option<JobRecord>, onDisk: string -> bool, path: string) {
    && rec.Some? && rec.value.status == Completed
    && rec.value.result.Some? && rec.value.result.value != []
    && Get(rec.value.result.value, "repomap_path") == Some(JStr(path))
    && onDisk(path)
  }

  /** The gates of `get_job_artifacts`, in order: an unknown job is 404, a
      job that has not completed is 409, a completed job without a result
      or whose repository map is gone is 500. A result without a
      `repomap_path` string fails inside the handler, which the framework
      answers with 500 as well. On success the repository map's path. */
  function ArtifactsGate(rec: Option<JobRecord>, onDisk: string -> bool): (r: Result<string, HttpError>)
    ensures r.Err? && r.error.status == 404 <==> rec.None?
    ensures r.Err? && r.error.status == 409 <==> rec.Some? && rec.value.status != Completed
    ensures r.Ok? ==> ServesMap(rec, onDisk, r.value)
    ensures forall path :: ServesMap(rec, onDisk, path) ==> r == Ok(path)
  {
    if rec.None? then Err(HttpError(404, "Job not found"))
    else if rec.value.status != Completed then Err(HttpError(409, "Job not completed yet"))
    else if rec.value.result.None? || rec.value.result.value == [] then Err(HttpError(500, "Job result missing"))
    else match Get(rec.value.result.value, "repomap_path")
      case Some(JStr(path)) =>
        if onDisk(path) then Ok(path) else Err(HttpError(500, "Repo map missing"))
      case _ => Err(HttpError(500, "Internal Server Error"))
  }

  /** A job that `_run_job` completed with a result naming a repository map
      that is on disk serves its artifacts; one that failed, and one that
      was just created, answers 409. */
  lemma LifecycleGates(rec: JobRecord, progress: seq<Emission>, o: Outcome, now: string,
                       path: string, onDisk: string -> bool, id: string, request: Fields)
    ensures o.Returned? && o.result != [] && o.result[0] == ("repomap_path", JStr(path)) && onDisk(path) ==>
      ArtifactsGate(Some(Finished(rec, progress, o, now)), onDisk) == Ok(path)
    ensures o.Raised? ==> ArtifactsGate(Some(Finished(rec, progress, o, now)), onDisk) == Err(HttpError(409, "Job not completed yet"))
    ensures ArtifactsGate(Some(NewRecord(id, request, now)), onDisk) == Err(HttpError(409, "Job not completed yet"))
  {
    var f := Finished(rec, progress, o, now);
    assert f.status == FinalStatus(o);
    assert f.result == (if o.Returned? then Some(o.result) else None);
    if o.Returned? && o.result != [] && o.result[0] == ("repomap_path", JStr(path)) {
      GetFirst(o.result, "repomap_path", 0);
    }
  }

  /** An entry of the result's `chunks` list that `chunk_meta["path"]`
      reads: a dictionary with a string `path`. Its other keys are read
      only when the chunk's file exists. */
  datatype ChunkMeta = ChunkMeta(path: string, fields: Fields)

  /** `chunk_meta["path"]` and the path join: None where Python raises,
      because the entry is not a dictionary (`TypeError`), has no `path`
      (`KeyError`) or a path that is not a string (`TypeError`). */
  function MetaOf(item: Json): (r: Option<ChunkMeta>)
    ensures r.Some? <==> item.JObj? && exists p :: Get(item.fields, "path") == Some(JStr(p))
    ensures r.Some? ==> Get(item.fields, "path") == Some(JStr(r.value.path)) && r.value.fields == item.fields
  {
    if item.JObj? then
      match Get(item.fields, "path")
      case Some(JStr(p)) => Some(ChunkMeta(p, item.fields))
      case _ => None
    else None
  }

  /** The keys a shown chunk copies from its entry. */
  predicate Complete(meta: ChunkMeta) {
    Get(meta.fields, "index").Some? && Get(meta.fields, "token_count").Some? && Get(meta.fields, "file_count").Some?
  }

  /** The response entry for a chunk whose file reads as `content`; None
      where `chunk_meta["index"]`, `["token_count"]` or `["file_count"]`
      raises `KeyError`. */
  function ChunkView(meta: ChunkMeta, content: string): (r: Option<Fields>)
    ensures r.Some? <==> Complete(meta)
  {
    match (Get(meta.fields, "index"), Get(meta.fields, "token_count"), Get(meta.fields, "file_count"))
    case (Some(index), Some(tokens), Some(files)) =>
      Some([("index", index), ("token_count", tokens), ("file_count", files), ("content", JStr(content))])
    case _ => None
  }

  /** The chunks whose files exist, in the result's order; None when one of
      them lacks a key the response copies. */
  function KeptChunks(metas: seq<ChunkMeta>, onDisk: string -> bool, read: string -> string): (r: Option<seq<Fields>>)
    ensures r.Some? ==> |r.value| <= |metas|
  {
    if metas == [] then Some([])
    else
      var meta := metas[|metas| - 1];
      match KeptChunks(metas[..|metas| - 1], onDisk, read)
      case None => None
      case Some(init) =>
        if !onDisk(meta.path) then Some(init)
        else match ChunkView(meta, read(meta.path))
          case None => None
          case Some(view) => Some(init + [view])
  }

  /** The entries of `record.result.get("chunks", [])`, each read as a
      chunk entry; None where iterating the value or reading a `path`
      raises. */
  function ChunkMetas(result: Fields): (r: Option<seq<ChunkMeta>>)
    ensures var it := Iterated(Get(result, "chunks").GetOr(JArr([])));
      r.Some? <==> it.Some? && forall k :: 0 <= k < |it.value| ==> MetaOf(it.value[k]).Some?
    ensures var it := Iterated(Get(result, "chunks").GetOr(JArr([])));
      r.Some? ==> |r.value| == |it.value| && forall k :: 0 <= k < |it.value| ==> MetaOf(it.value[k]) == Some(r.value[k])
  {
    match Iterated(Get(result, "chunks").GetOr(JArr([])))
    case None => None
    case Some(items) =>
      if forall k :: 0 <= k < |items| ==> MetaOf(items[k]).Some? then
        Some(seq(|items|, k requires 0 <= k < |items| => MetaOf(items[k]).value))
      else None
  }

  /** The chunk list of the response, or None when reading it raises. */
  function ReadChunks(result: Fields, onDisk: string -> bool, read: string -> string): Option<seq<Fields>> {
    match ChunkMetas(result)
    case None => None
    case Some(metas) => KeptChunks(metas, onDisk, read)
  }

  /** `entry` is the view of one of `metas` whose file exists. */
  ghost predicate ShowsChunk(entry: Fields, metas: seq<ChunkMeta>, onDisk: string -> bool, read: string -> string) {
    exists k :: 0 <= k < |metas| && onDisk(metas[k].path) && Some(entry) == ChunkView(metas[k], read(metas[k].path))
  }

  /** Reading fails exactly when a chunk whose file exists lacks a key. */
  lemma {:induction false} KeptChunksFail(metas: seq<ChunkMeta>, onDisk: string -> bool, read: string -> string)
    ensures KeptChunks(metas, onDisk, read).None? <==>
      exists k :: 0 <= k < |metas| && onDisk(metas[k].path) && !Complete(metas[k])
  {
    if metas != [] {
      var init := metas[..|metas| - 1];
      KeptChunksFail(init, onDisk, read);
      if exists k :: 0 <= k < |init| && onDisk(init[k].path) && !Complete(init[k]) {
        var k :| 0 <= k < |init| && onDisk(init[k].path) && !Complete(init[k]);
        assert metas[k] == init[k];
      }
      if exists k :: 0 <= k < |metas| && onDisk(metas[k].path) && !Complete(metas[k]) {
        var k :| 0 <= k < |metas| && onDisk(metas[k].path) && !Complete(metas[k]);
        if k < |init| {
          assert metas[k] == init[k];
        }
      }
    }
  }

  /** Each kept entry shows a chunk of the result whose file exists. */
  lemma {:induction false} KeptChunksFromDisk(metas: seq<ChunkMeta>, onDisk: string -> bool, read: string -> string)
    ensures KeptChunks(metas, onDisk, read).Some? ==>
      forall j :: 0 <= j < |KeptChunks(metas, onDisk, read).value| ==>
        ShowsChunk(KeptChunks(metas, onDisk, read).value[j], metas, onDisk, read)
  {
    if metas != [] && KeptChunks(metas, onDisk, read).Some? {
      var init := metas[..|metas| - 1];
      KeptChunksFromDisk(init, onDisk, read);
      var r := KeptChunks(metas, onDisk, read).value;
      var ri := KeptChunks(init, onDisk, read).value;
      var last := metas[|metas| - 1];
      assert r == ri + (if onDisk(last.path) then [ChunkView(last, read(last.path)).value] else []);
      forall j | 0 <= j < |r|
        ensures ShowsChunk(r[j], metas, onDisk, read)
      {
        if j < |ri| {
          assert ShowsChunk(ri[j], init, onDisk, read);
          var k :| 0 <= k < |init| && onDisk(init[k].path) && Some(ri[j]) == ChunkView(init[k], read(init[k].path));
          assert metas[k] == init[k] && r[j] == ri[j];
        } else {
          assert onDisk(last.path) && Some(r[j]) == ChunkView(last, read(last.path));
        }
      }
    }
  }

  /** When every chunk file exists and every entry has its keys, all
      chunks are shown, in order. */
  lemma {:induction false} KeptChunksAll(metas: seq<ChunkMeta>, onDisk: string -> bool, read: string -> string)
    requires forall k :: 0 <= k < |metas| ==> onDisk(metas[k].path) && Complete(metas[k])
    ensures KeptChunks(metas, onDisk, read).Some?
    ensures |KeptChunks(metas, onDisk, read).value| == |metas|
    ensures forall k :: 0 <= k < |metas| ==>
      Some(KeptChunks(metas, onDisk, read).value[k]) == ChunkView(metas[k], read(metas[k].path))
  {
    if metas != [] {
      var init := metas[..|metas| - 1];
      KeptChunksAll(init, onDisk, read);
    }
  }

  /** When no chunk file exists none is shown, whatever the entries hold. */
  lemma {:induction false} KeptChunksNone(metas: seq<ChunkMeta>, onDisk: string -> bool, read: string -> string)
    requires forall k :: 0 <= k < |metas| ==> !onDisk(metas[k].path)
    ensures KeptChunks(metas, onDisk, read) == Some([])
  {
    if metas != [] {
      KeptChunksNone(metas[..|metas| - 1], onDisk, read);
    }
  }

  /** A `chunks` value that is not iterable, or an entry that is not a
      dictionary with a string `path`, makes the listing fail. */
  lemma MalformedChunksFail(result: Fields, onDisk: string -> bool, read: string -> string)
    requires Get(result, "chunks").Some?
    requires var v := Get(result, "chunks").value;
      !(v.JArr? || v.JStr? || v.JObj?) || (v.JArr? && exists k :: 0 <= k < |v.items| && MetaOf(v.items[k]).None?)
    ensures ReadChunks(result, onDisk, read).None?
  {
  }

  /** The loop of `get_job_artifacts` that reads the chunks that exist. */
  method CollectChunks(metas: seq<ChunkMeta>, onDisk: string -> bool, read: string -> string) returns (chunks: Option<seq<Fields>>)
    ensures chunks == KeptChunks(metas, onDisk, read)
  {
    var shown: seq<Fields> := [];
    var i := 0;
    while i < |metas|
      invariant 0 <= i <= |metas|
      invariant KeptChunks(metas[..i], onDisk, read) == Some(shown)
    {
      assert metas[..i + 1][..i] == metas[..i];
      var meta := metas[i];
      if onDisk(meta.path) {
        var view := ChunkView(meta, read(meta.path));
        if view.None? {
          KeptStaysFailed(metas, i + 1, onDisk, read);
          assert metas[..|metas|] == metas;
          return None;
        }
        shown := shown + [view.value];
      }
      i := i + 1;
    }
    assert metas[..i] == metas;
    chunks := Some(shown);
  }

  /** Once reading has failed it stays failed. */
  lemma {:induction false} KeptStaysFailed(metas: seq<ChunkMeta>, i: nat, onDisk: string -> bool, read: string -> string)
    requires i <= |metas| && KeptChunks(metas[..i], onDisk, read).None?
    ensures KeptChunks(metas, onDisk, read).None?
    decreases |metas| - i
  {
    if i < |metas| {
      assert metas[..i + 1][..i] == metas[..i];
      KeptStaysFailed(metas, i + 1, onDisk, read);
    } else {
      assert metas[..i] == metas;
    }
  }

  /** Dictionaries as JSON objects. */
  function Objects(entries: seq<Fields>): (r: seq<Json>)
    ensures |r| == |entries| && forall k :: 0 <= k < |r| ==> r[k] == JObj(entries[k])
  {
    seq(|entries|, k requires 0 <= k < |entries| => JObj(entries[k]))
  }

  /** The response of `get_job_artifacts`: the gate's error; a 500 when
      the result's `chunks` list cannot be read; or the repository map's
      text, the chunks that exist and the result's warnings, estimator
      name and totals. */
  method GetJobArtifacts(rec: Option<JobRecord>, onDisk: string -> bool, read: string -> string)
    returns (r: Result<Fields, HttpError>)
    ensures ArtifactsGate(rec, onDisk).Err? ==> r == Err(ArtifactsGate(rec, onDisk).error)
    ensures ArtifactsGate(rec, onDisk).Ok? && ReadChunks(rec.value.result.value, onDisk, read).None? ==>
      r == Err(HttpError(500, "Internal Server Error"))
    ensures ArtifactsGate(rec, onDisk).Ok? && ReadChunks(rec.value.result.value, onDisk, read).Some? ==>
      var result := rec.value.result.value;
      r == Ok([
        ("repomap", JStr(read(ArtifactsGate(rec, onDisk).value))),
        ("chunks", JArr(Objects(ReadChunks(result, onDisk, read).value))),
        ("warnings", Get(result, "warnings").GetOr(JArr([]))),
        ("token_estimator", Get(result, "token_estimator").GetOr(JNull)),
        ("token_totals", Get(result, "token_totals").GetOr(JNull))])
    ensures r.Ok? ==> var result := rec.value.result.value;
      && ArtifactsGate(rec, onDisk).Ok? && ReadChunks(result, onDisk, read).Some?
      && r.value == [
        ("repomap", JStr(read(ArtifactsGate(rec, onDisk).value))),
        ("chunks", JArr(Objects(ReadChunks(result, onDisk, read).value))),
        ("warnings", Get(result, "warnings").GetOr(JArr([]))),
        ("token_estimator", Get(result, "token_estimator").GetOr(JNull)),
        ("token_totals", Get(result, "token_totals").GetOr(JNull))]
  {
    var gate := ArtifactsGate(rec, onDisk);
    if gate.Err? {
      return Err(gate.error);
    }
    var result := rec.value.result.value;
    var metas := ChunkMetas(result);
    if metas.None? {
      return Err(HttpError(500, "Internal Server Error"));
    }
    var chunks := CollectChunks(metas.value, onDisk, read);
    if chunks.None? {
      return Err(HttpError(500, "Internal Server Error"));
    }
    r := Ok([
      ("repomap", JStr(read(gate.value))),
      ("chunks", JArr(Objects(chunks.value))),
      ("warnings", Get(result, "warnings").GetOr(JArr([]))),
      ("token_estimator", Get(result, "token_estimator").GetOr(JNull)),
      ("token_totals", Get(result, "token_totals").GetOr(JNull))]);
  }
}
