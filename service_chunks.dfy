/** The token-bounded chunking of the consolidated snapshot, and the order
    in which `collect_repo_snapshot` hands its parts to the caller's
    writers.

    The directory walk is not modelled: it is abstracted into the sequence
    of file blocks it produces, each block being the header and body text
    of one kept file together with the token count the estimator gave it. */
module ServiceChunks {
  import opened Basics
  import opened ServiceFilter

  /** One kept file: its header and body text and its estimated tokens. */
  datatype Block = Block(text: string, tokens: nat)

  /** `RepoSnapshotChunk` */
  datatype Chunk = Chunk(index: nat, tokenCount: nat, fileCount: nat, content: string)

  /** The limit in force: `chunk_token_limit` when it is a positive number,
      otherwise none. */
  function ChunkLimit(chunkTokenLimit: Option<int>): (r: Option<nat>)
    ensures r.Some? <==> chunkTokenLimit.Some? && chunkTokenLimit.value > 0
    ensures r.Some? ==> r.value == chunkTokenLimit.value && r.value > 0
  {
    if chunkTokenLimit.Some? && chunkTokenLimit.value > 0 then Some(chunkTokenLimit.value as nat) else None
  }

  function Tokens(blocks: seq<Block>): nat {
    if blocks == [] then 0 else Tokens(blocks[..|blocks| - 1]) + blocks[|blocks| - 1].tokens
  }

  function Text(blocks: seq<Block>): string {
    if blocks == [] then "" else Text(blocks[..|blocks| - 1]) + blocks[|blocks| - 1].text
  }

  /** The chunk is closed before a block exactly when a limit is in force,
      the chunk already holds tokens, and the block would take it over the
      limit. */
  predicate Cuts(limit: Option<nat>, current: nat, block: nat) {
    limit.Some? && current > 0 && current + block > limit.value
  }

  /** The groups after one more block: it closes the last group and opens
      a new one when it cuts, otherwise it joins the last group. */
  function AddBlock(gs: seq<seq<Block>>, b: Block, limit: Option<nat>): (r: seq<seq<Block>>)
    requires |gs| >= 1
    ensures |r| >= 1
  {
    var last := gs[|gs| - 1];
    if Cuts(limit, Tokens(last), b.tokens) then gs + [[b]]
    else gs[..|gs| - 1] + [last + [b]]
  }

  /** The groups of blocks that become the chunks, built block by block as
      the walk delivers them. */
  function Groups(blocks: seq<Block>, limit: Option<nat>): (gs: seq<seq<Block>>)
    ensures |gs| >= 1
    decreases |blocks|
  {
    if blocks == [] then [[]]
    else AddBlock(Groups(blocks[..|blocks| - 1], limit), blocks[|blocks| - 1], limit)
  }

  /** Each group as a chunk, numbered from 1. */
  function Summaries(gs: seq<seq<Block>>): (r: seq<Chunk>)
    ensures |r| == |gs|
    ensures forall k :: 0 <= k < |gs| ==>
      r[k] == Chunk(k + 1, Tokens(gs[k]), |gs[k]|, Text(gs[k]))
  {
    seq(|gs|, k requires 0 <= k < |gs| => Chunk(k + 1, Tokens(gs[k]), |gs[k]|, Text(gs[k])))
  }

  /** The chunks `_generate_consolidated_chunks` returns for the blocks. */
  function Chunked(blocks: seq<Block>, chunkTokenLimit: Option<int>): seq<Chunk> {
    Summaries(Groups(blocks, ChunkLimit(chunkTokenLimit)))
  }

  lemma GroupsStep(blocks: seq<Block>, i: nat, limit: Option<nat>)
    requires i < |blocks|
    ensures Groups(blocks[..i + 1], limit) == AddBlock(Groups(blocks[..i], limit), blocks[i], limit)
  {
    assert blocks[..i + 1][..i] == blocks[..i];
  }

  lemma AddBlockSnoc(done: seq<seq<Block>>, cur: seq<Block>, b: Block, limit: Option<nat>)
    ensures Cuts(limit, Tokens(cur), b.tokens) ==> AddBlock(done + [cur], b, limit) == (done + [cur]) + [[b]]
    ensures !Cuts(limit, Tokens(cur), b.tokens) ==> AddBlock(done + [cur], b, limit) == done + [cur + [b]]
  {
    assert (done + [cur])[..|done|] == done;
  }

  /** `finalize_chunk`: the open group becomes the next chunk. */
  method FinalizeChunk(chunks: seq<Chunk>, buffer: string, tokens: nat, fileCount: nat,
                       ghost done: seq<seq<Block>>, ghost cur: seq<Block>) returns (r: seq<Chunk>)
    requires chunks == Summaries(done)
    requires buffer == Text(cur) && tokens == Tokens(cur) && fileCount == |cur|
    ensures r == Summaries(done + [cur])
  {
    SummariesSnoc(done, cur);
    r := chunks + [Chunk(|chunks| + 1, tokens, fileCount, buffer)];
  }

  /** The handling of one kept file: the open chunk is finalized first when
      the file's tokens would take it over the limit, then the file joins
      the open chunk. The ghost `done` and `cur` are the finalized groups
      and the open one. */
  method AddFile(chunks: seq<Chunk>, buffer: string, tokens: nat, fileCount: nat, b: Block, limit: Option<nat>,
                 ghost done: seq<seq<Block>>, ghost cur: seq<Block>)
    returns (chunks': seq<Chunk>, buffer': string, tokens': nat, fileCount': nat,
             ghost done': seq<seq<Block>>, ghost cur': seq<Block>)
    requires chunks == Summaries(done)
    requires buffer == Text(cur) && tokens == Tokens(cur) && fileCount == |cur|
    ensures done' + [cur'] == AddBlock(done + [cur], b, limit)
    ensures chunks' == Summaries(done')
    ensures buffer' == Text(cur') && tokens' == Tokens(cur') && fileCount' == |cur'|
    ensures cur' != []
  {
    AddBlockSnoc(done, cur, b, limit);
    if limit.Some? && tokens > 0 && tokens + b.tokens > limit.value {
      chunks' := FinalizeChunk(chunks, buffer, tokens, fileCount, done, cur);
      done', cur' := done + [cur], [b];
      TokensSnoc([], b);
      buffer', tokens', fileCount' := "" + b.text, 0 + b.tokens, 0 + 1;
    } else {
      chunks', done', cur' := chunks, done, cur + [b];
      TokensSnoc(cur, b);
      buffer', tokens', fileCount' := buffer + b.text, tokens + b.tokens, fileCount + 1;
    }
  }

  /** `_generate_consolidated_chunks` over the blocks of the walk. */
  method GenerateChunks(blocks: seq<Block>, chunkTokenLimit: Option<int>) returns (chunks: seq<Chunk>)
    ensures chunks == Chunked(blocks, chunkTokenLimit)
  {
    var limit := ChunkLimit(chunkTokenLimit);
    chunks := [];
    var buffer: string := "";
    var tokens: nat := 0;
    var fileCount: nat := 0;
    ghost var done: seq<seq<Block>> := [];
    ghost var cur: seq<Block> := [];
    var i := 0;
    while i < |blocks|
      invariant 0 <= i <= |blocks|
      invariant done + [cur] == Groups(blocks[..i], limit)
      invariant chunks == Summaries(done)
      invariant buffer == Text(cur) && tokens == Tokens(cur) && fileCount == |cur|
      invariant i > 0 ==> cur != []
    {
      GroupsStep(blocks, i, limit);
      chunks, buffer, tokens, fileCount, done, cur := AddFile(chunks, buffer, tokens, fileCount, blocks[i], limit, done, cur);
      i := i + 1;
    }
    assert blocks[..i] == blocks;
    if |buffer| > 0 || fileCount > 0 || |chunks| == 0 {
      chunks := FinalizeChunk(chunks, buffer, tokens, fileCount, done, cur);
    }
  }

  lemma SummariesSnoc(gs: seq<seq<Block>>, g: seq<Block>)
    ensures Summaries(gs + [g]) == Summaries(gs) + [Chunk(|gs| + 1, Tokens(g), |g|, Text(g))]
  {
  }

  lemma TokensSnoc(a: seq<Block>, b: Block)
    ensures Tokens(a + [b]) == Tokens(a) + b.tokens
    ensures Text(a + [b]) == Text(a) + b.text
    ensures (a + [b])[..|a|] == a
    ensures a == [] ==> Tokens([b]) == b.tokens && Text([b]) == b.text
  {
    assert (a + [b])[..|a|] == a;
  }

  lemma {:induction false} TokensConcat(a: seq<Block>, b: seq<Block>)
    ensures Tokens(a + b) == Tokens(a) + Tokens(b)
    ensures Text(a + b) == Text(a) + Text(b)
    decreases |b|
  {
    if b != [] {
      var c := b[..|b| - 1];
      assert (a + b)[..|a + b| - 1] == a + c;
      TokensConcat(a, c);
    } else {
      assert a + b == a;
    }
  }

  /** Every group but the last is nonempty. */
  ghost predicate InnerNonEmpty(gs: seq<seq<Block>>) {
    forall k :: 0 <= k < |gs| - 1 ==> gs[k] != []
  }

  lemma AddBlockShape(gs: seq<seq<Block>>, b: Block, limit: Option<nat>)
    requires |gs| >= 1 && InnerNonEmpty(gs)
    requires gs[|gs| - 1] == [] ==> |gs| == 1
    ensures Flatten(AddBlock(gs, b, limit)) == Flatten(gs) + [b]
    ensures InnerNonEmpty(AddBlock(gs, b, limit))
    ensures AddBlock(gs, b, limit)[|AddBlock(gs, b, limit)| - 1] != []
  {
    var last := gs[|gs| - 1];
    var front := gs[..|gs| - 1];
    assert gs == front + [last];
    if Cuts(limit, Tokens(last), b.tokens) {
      FlattenAppend(gs, [b]);
    } else {
      FlattenAppend(front, last);
      FlattenAppend(front, last + [b]);
    }
  }

  /** The groups partition the blocks in order; only the last may be empty,
      and then it is the only one. */
  lemma {:induction false} GroupsPartition(blocks: seq<Block>, limit: Option<nat>)
    ensures Flatten(Groups(blocks, limit)) == blocks
    ensures InnerNonEmpty(Groups(blocks, limit))
    ensures Groups(blocks, limit)[|Groups(blocks, limit)| - 1] == [] <==> blocks == []
    decreases |blocks|
  {
    if blocks != [] {
      var init := blocks[..|blocks| - 1];
      GroupsPartition(init, limit);
      AddBlockShape(Groups(init, limit), blocks[|blocks| - 1], limit);
      assert blocks == init + [blocks[|blocks| - 1]];
    } else {
      assert Flatten([[]]) == [] + Flatten<Block>([]);
    }
  }

  /** Every group but the last holds tokens, and the next group begins with
      a block that did not fit beside them. */
  ghost predicate Greedy(gs: seq<seq<Block>>, limit: Option<nat>) {
    && (|gs| > 1 ==> limit.Some?)
    && forall k :: 0 <= k < |gs| - 1 ==> FollowsGreedily(gs[k], gs[k + 1], limit)
  }

  /** `next` was opened because its first block did not fit beside the
      tokens of `prev`. */
  ghost predicate FollowsGreedily(prev: seq<Block>, next: seq<Block>, limit: Option<nat>) {
    next != [] && Tokens(prev) > 0 && (limit.Some? ==> Tokens(prev) + next[0].tokens > limit.value)
  }

  lemma AddBlockGreedy(gs: seq<seq<Block>>, b: Block, limit: Option<nat>)
    requires |gs| >= 1 && Greedy(gs, limit)
    ensures Greedy(AddBlock(gs, b, limit), limit)
  {
    var last := gs[|gs| - 1];
    var r := AddBlock(gs, b, limit);
    if !Cuts(limit, Tokens(last), b.tokens) {
      assert forall k :: 0 <= k < |gs| - 1 ==> r[k] == gs[k];
      if |gs| >= 2 {
        assert FollowsGreedily(gs[|gs| - 2], gs[|gs| - 1], limit);
        assert r[|gs| - 1][0] == last[0];
        assert FollowsGreedily(r[|gs| - 2], r[|gs| - 1], limit);
      }
    }
  }

  lemma {:induction false} GroupsGreedy(blocks: seq<Block>, limit: Option<nat>)
    ensures Greedy(Groups(blocks, limit), limit)
    decreases |blocks|
  {
    if blocks != [] {
      GroupsGreedy(blocks[..|blocks| - 1], limit);
      AddBlockGreedy(Groups(blocks[..|blocks| - 1], limit), blocks[|blocks| - 1], limit);
    }
  }

  /** A group goes over the limit only when everything in it before its
      last block counts no tokens. */
  ghost predicate Bounded(gs: seq<seq<Block>>, limit: nat) {
    forall k :: 0 <= k < |gs| && Tokens(gs[k]) > limit ==>
      gs[k] != [] && Tokens(gs[k][..|gs[k]| - 1]) == 0
  }

  lemma AddBlockBounded(gs: seq<seq<Block>>, b: Block, limit: Option<nat>)
    requires limit.Some? && |gs| >= 1 && Bounded(gs, limit.value)
    ensures Bounded(AddBlock(gs, b, limit), limit.value)
  {
    var last := gs[|gs| - 1];
    TokensSnoc(last, b);
    TokensSnoc([], b);
  }

  lemma {:induction false} GroupsBounded(blocks: seq<Block>, limit: Option<nat>)
    requires limit.Some?
    ensures Bounded(Groups(blocks, limit), limit.value)
    decreases |blocks|
  {
    if blocks != [] {
      GroupsBounded(blocks[..|blocks| - 1], limit);
      AddBlockBounded(Groups(blocks[..|blocks| - 1], limit), blocks[|blocks| - 1], limit);
    }
  }

  /** Without a limit in force all blocks form one chunk. */
  lemma {:induction false} NoLimitOneGroup(blocks: seq<Block>)
    ensures Groups(blocks, None) == [blocks]
    decreases |blocks|
  {
    if blocks != [] {
      NoLimitOneGroup(blocks[..|blocks| - 1]);
      assert blocks[..|blocks| - 1] + [blocks[|blocks| - 1]] == blocks;
    }
  }

  /** When no block counts a token (as with a disabled estimator) all
      blocks form one chunk, whatever the limit. */
  lemma {:induction false} TokenlessOneGroup(blocks: seq<Block>, limit: Option<nat>)
    requires forall k :: 0 <= k < |blocks| ==> blocks[k].tokens == 0
    ensures Groups(blocks, limit) == [blocks]
    decreases |blocks|
  {
    if blocks != [] {
      var init := blocks[..|blocks| - 1];
      TokenlessOneGroup(init, limit);
      TokenlessZero(init);
      OneGroupStep(blocks, limit);
    }
  }

  /** A block that counts no token joins a single group holding none. */
  lemma OneGroupStep(blocks: seq<Block>, limit: Option<nat>)
    requires blocks != []
    requires var init := blocks[..|blocks| - 1];
      Groups(init, limit) == [init] && Tokens(init) == 0 && blocks[|blocks| - 1].tokens == 0
    ensures Groups(blocks, limit) == [blocks]
  {
    var init := blocks[..|blocks| - 1];
    var b := blocks[|blocks| - 1];
    AddBlockSnoc([], init, b, limit);
    assert [] + [init] == [init];
    assert init + [b] == blocks;
  }

  lemma {:induction false} TokenlessZero(blocks: seq<Block>)
    requires forall k :: 0 <= k < |blocks| ==> blocks[k].tokens == 0
    ensures Tokens(blocks) == 0
    decreases |blocks|
  {
    if blocks != [] {
      TokenlessZero(blocks[..|blocks| - 1]);
    }
  }

  /** Concatenating the chunks' contents gives the blocks' text in order;
      their token and file counts add up to the blocks'. */
  function Contents(cs: seq<Chunk>): (r: seq<string>)
    ensures |r| == |cs|
    ensures forall k :: 0 <= k < |cs| ==> r[k] == cs[k].content
  {
    seq(|cs|, k requires 0 <= k < |cs| => cs[k].content)
  }

  lemma {:induction false} SummariesCover(gs: seq<seq<Block>>)
    ensures Flatten(Contents(Summaries(gs))) == Text(Flatten(gs))
    decreases |gs|
  {
    if gs != [] {
      var rest := gs[1..];
      SummariesCover(rest);
      assert Contents(Summaries(gs))[1..] == Contents(Summaries(rest));
      TokensConcat(gs[0], Flatten(rest));
    } else {
      assert Flatten<char>([]) == [];
    }
  }

  /** At least one chunk, numbered 1..n, and their contents concatenate
      to the blocks' text: no block is lost, repeated or reordered. */
  lemma ChunksCover(blocks: seq<Block>, chunkTokenLimit: Option<int>)
    ensures |Chunked(blocks, chunkTokenLimit)| >= 1
    ensures forall k :: 0 <= k < |Chunked(blocks, chunkTokenLimit)| ==> Chunked(blocks, chunkTokenLimit)[k].index == k + 1
    ensures Flatten(Contents(Chunked(blocks, chunkTokenLimit))) == Text(blocks)
  {
    var gs := Groups(blocks, ChunkLimit(chunkTokenLimit));
    GroupsPartition(blocks, ChunkLimit(chunkTokenLimit));
    SummariesCover(gs);
  }

  /** Without a positive limit the snapshot is one chunk holding every
      block. */
  lemma ChunksWithoutLimit(blocks: seq<Block>, chunkTokenLimit: Option<int>)
    requires chunkTokenLimit.None? || chunkTokenLimit.value <= 0
    ensures Chunked(blocks, chunkTokenLimit) == [Chunk(1, Tokens(blocks), |blocks|, Text(blocks))]
  {
    NoLimitOneGroup(blocks);
  }

  /** Every chunk but the last holds files and tokens: a chunk is closed
      only when it holds tokens and the next file does not fit. */
  lemma ChunksBeforeLastHoldTokens(blocks: seq<Block>, chunkTokenLimit: Option<int>)
    ensures forall k :: 0 <= k < |Chunked(blocks, chunkTokenLimit)| - 1 ==>
      Chunked(blocks, chunkTokenLimit)[k].tokenCount > 0 && Chunked(blocks, chunkTokenLimit)[k].fileCount > 0
  {
    var gs := Groups(blocks, ChunkLimit(chunkTokenLimit));
    GroupsGreedy(blocks, ChunkLimit(chunkTokenLimit));
    forall k | 0 <= k < |gs| - 1
      ensures Tokens(gs[k]) > 0 && |gs[k]| > 0
    {
      assert FollowsGreedily(gs[k], gs[k + 1], ChunkLimit(chunkTokenLimit));
    }
  }

  /** The writers that `collect_repo_snapshot` calls, in the order it calls
      them. */
  datatype Written = RepoMapWritten(text: string) | ChunkWritten(chunk: Chunk)

  /** `RepoSnapshot`; the estimator is represented by whether it is enabled. */
  datatype RepoSnapshot = RepoSnapshot(repoMapText: string, chunks: seq<Chunk>, warnings: seq<string>, estimatorEnabled: bool)

  /** The blocks of the kept files, counted by the fallback estimator. */
  function Counted(files: seq<string>, enabled: bool): (bs: seq<Block>)
    ensures |bs| == |files|
    ensures forall k :: 0 <= k < |files| ==> bs[k] == Block(files[k], TokenCount(enabled, files[k]))
  {
    seq(|files|, k requires 0 <= k < |files| => Block(files[k], TokenCount(enabled, files[k])))
  }

  /** `collect_repo_snapshot`: the repository map (computed by the walk and
      passed in, with its warnings) goes to the map writer first, then the
      chunks go to the chunk writer one by one in index order. Without an
      estimator a disabled one is used. */
  method CollectRepoSnapshot(repoMapText: string, warnings: seq<string>, files: seq<string>,
                             estimatorEnabled: Option<bool>, chunkTokenLimit: Option<int>,
                             hasRepomapWriter: bool, hasChunkWriter: bool)
    returns (snapshot: RepoSnapshot, written: seq<Written>)
    ensures var enabled := estimatorEnabled.GetOr(false);
      snapshot == RepoSnapshot(repoMapText, Chunked(Counted(files, enabled), chunkTokenLimit), warnings, enabled)
    ensures written == (if hasRepomapWriter then [RepoMapWritten(repoMapText)] else [])
      + (if hasChunkWriter then seq(|snapshot.chunks|, k requires 0 <= k < |snapshot.chunks| => ChunkWritten(snapshot.chunks[k])) else [])
  {
    var enabled := estimatorEnabled.GetOr(false);
    written := [];
    if hasRepomapWriter {
      written := written + [RepoMapWritten(repoMapText)];
    }
    var chunks := GenerateChunks(Counted(files, enabled), chunkTokenLimit);
    ghost var before := written;
    if hasChunkWriter {
      var i := 0;
      while i < |chunks|
        invariant 0 <= i <= |chunks|
        invariant written == before + seq(i, k requires 0 <= k < i => ChunkWritten(chunks[k]))
      {
        written := written + [ChunkWritten(chunks[i])];
        i := i + 1;
      }
    }
    snapshot := RepoSnapshot(repoMapText, chunks, warnings, enabled);
  }

  /** Without an enabled estimator every block counts no tokens, so the
      snapshot is one chunk whatever the limit. */
  lemma DisabledEstimatorOneChunk(files: seq<string>, chunkTokenLimit: Option<int>)
    ensures |Chunked(Counted(files, false), chunkTokenLimit)| == 1
  {
    TokenlessOneGroup(Counted(files, false), ChunkLimit(chunkTokenLimit));
  }
}
