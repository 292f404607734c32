/** Knowledge ingestion as committed transactions.

    An upload or a retry is several transactions; between two of them the process can crash
    and any number of other calls can commit theirs. */
module Ingestion {
  import opened Collections
  import Chunker
  import Words

  type Uuid = nat
  type Bytes = seq<nat>

  // ----- the job status graph -----

  datatype JobStatus = Queued | Running | Succeeded | Failed | Cancelled

  function Transitions(from: JobStatus): set<JobStatus> {
    match from
    case Queued => {Running, Cancelled}
    case Running => {Succeeded, Failed, Cancelled}
    case Succeeded => {}
    case Failed => {Queued}
    case Cancelled => {}
  }

  // ----- rows -----

  datatype Version = Version(organisation: Uuid, workspace: Uuid, storageKey: StorageKey, mediaType: string)

  datatype StorageKey = StorageKey(organisation: Uuid, workspace: Uuid, document: Uuid, version: Uuid)

  datatype Job = Job(version: Uuid, organisation: Uuid, workspace: Uuid, status: JobStatus, idempotencyKey: string)

  datatype ChunkRow = ChunkRow(organisation: Uuid, workspace: Uuid, chunk: Chunker.Chunk)

  datatype Embedding = Embedding(model: string, vector: seq<real>, dimensions: nat)

  datatype EmbeddingRow = EmbeddingRow(organisation: Uuid, workspace: Uuid, embedding: Embedding)

  /** Chunk and embedding rows are keyed by version and chunk index, which are unique. */
  type ChunkKey = (Uuid, nat)

  datatype Db = Db(
    versions: map<Uuid, Version>,
    jobs: map<Uuid, Job>,
    chunks: map<ChunkKey, ChunkRow>,
    embeddings: map<ChunkKey, EmbeddingRow>)

  type Blobs = map<StorageKey, Bytes>

  /** What the deployment fixes: the parser, the chunk sizes and the hash. */
  datatype Environment = Environment(parse: (Bytes, string) -> Option<string>, config: Chunker.Config, sha256: string -> string)

  ghost predicate Configured(env: Environment) {
    env.config.Valid()
  }

  // ----- the pipeline of one attempt -----

  datatype Prepared = Prepared(chunk: Chunker.Chunk, embedding: Embedding)

  /** The embedder's answer when it is called with this text as the attempt's i-th call; None
      when it raises. */
  type Embedder = (nat, string) -> Option<Embedding>

  /** Embed the chunks in order; fail on the first error or dimension mismatch. */
  function Prepare(chunks: seq<Chunker.Chunk>, embed: Embedder): Option<seq<Prepared>> {
    if chunks == [] then Some([])
    else
      var n := |chunks| - 1;
      match Prepare(chunks[..n], embed)
      case None => None
      case Some(rows) =>
        match embed(n, chunks[n].chunkText)
        case None => None
        case Some(e) => if |e.vector| != e.dimensions then None else Some(rows + [Prepared(chunks[n], e)])
  }

  /** The embedder answers the i-th call, made with the i-th chunk's own text, by an embedding
      of its declared dimensions. */
  ghost predicate Embeds(chunks: seq<Chunker.Chunk>, embed: Embedder, i: nat)
    requires i < |chunks|
  {
    exists e :: embed(i, chunks[i].chunkText) == Some(e) && |e.vector| == e.dimensions
  }

  ghost predicate EmbedsAll(chunks: seq<Chunker.Chunk>, embed: Embedder) {
    forall i :: 0 <= i < |chunks| ==> Embeds(chunks, embed, i)
  }

  /** Rows exactly when every chunk's own text is embedded soundly, and then each row is that
      chunk with the embedding of its own text. */
  ghost predicate PreparationIs(chunks: seq<Chunker.Chunk>, embed: Embedder, rows: Option<seq<Prepared>>) {
    && (rows.Some? <==> EmbedsAll(chunks, embed))
    && (rows.Some? ==>
          && |rows.value| == |chunks|
          && forall i :: 0 <= i < |chunks| ==>
               && rows.value[i].chunk == chunks[i]
               && embed(i, chunks[i].chunkText) == Some(rows.value[i].embedding)
               && |rows.value[i].embedding.vector| == rows.value[i].embedding.dimensions)
  }

  lemma {:induction false} PreparedExactly(chunks: seq<Chunker.Chunk>, embed: Embedder)
    ensures PreparationIs(chunks, embed, Prepare(chunks, embed))
  {
    if chunks != [] {
      var n := |chunks| - 1;
      PreparedExactly(chunks[..n], embed);
      FrontEmbeds(chunks, embed);
    }
  }

  lemma FrontEmbeds(chunks: seq<Chunker.Chunk>, embed: Embedder)
    requires chunks != []
    ensures EmbedsAll(chunks, embed) <==> EmbedsAll(chunks[..|chunks| - 1], embed) && Embeds(chunks, embed, |chunks| - 1)
  {
    var n := |chunks| - 1;
    forall i | 0 <= i < n ensures Embeds(chunks[..n], embed, i) <==> Embeds(chunks, embed, i) {
    }
  }

  function Attempt(env: Environment, content: Bytes, mediaType: string, embed: Embedder): Option<seq<Prepared>>
    requires env.config.Valid()
  {
    match env.parse(content, mediaType)
    case None => None
    case Some(text) => Prepare(Chunker.ChunksOf(text, env.config, env.sha256), embed)
  }

  // ----- the transactions -----

  /** Document, version and queued job appear together. */
  function QueueUpload(db: Db, version: Uuid, job: Uuid, row: Version, idempotencyKey: string): Db {
    db.(versions := db.versions[version := row],
        jobs := db.jobs[job := Job(version, row.organisation, row.workspace, Queued, idempotencyKey)])
  }

  /** The unique constraint on (organisation, workspace, idempotency key). */
  predicate KeyTaken(db: Db, organisation: Uuid, workspace: Uuid, idempotencyKey: string) {
    exists j :: j in db.jobs && db.jobs[j].organisation == organisation && db.jobs[j].workspace == workspace
                && db.jobs[j].idempotencyKey == idempotencyKey
  }

  function SetStatus(db: Db, job: Uuid, status: JobStatus): Db
    requires job in db.jobs
  {
    db.(jobs := db.jobs[job := db.jobs[job].(status := status)])
  }

  function NewKeys(version: Uuid, n: nat): set<ChunkKey> {
    set i | 0 <= i < n :: (version, i)
  }

  function InsertPrepared(db: Db, job: Job, rows: seq<Prepared>): Db {
    db.(chunks := db.chunks + (map k | k in NewKeys(job.version, |rows|) && 0 <= k.1 < |rows| ::
                                 ChunkRow(job.organisation, job.workspace, rows[k.1].chunk)),
        embeddings := db.embeddings + (map k | k in NewKeys(job.version, |rows|) && 0 <= k.1 < |rows| ::
                                 EmbeddingRow(job.organisation, job.workspace, rows[k.1].embedding)))
  }

  /** A unique index on (version, chunk index) is violated. */
  ghost predicate Conflicts(db: Db, version: Uuid, n: nat) {
    exists i :: 0 <= i < n && (version, i) in db.chunks
  }

  /** The closing transaction: rows and success together, or failure.  A conflict makes the
      commit itself fail, which leaves the database as it was. */
  ghost function Finish(db: Db, job: Uuid, attempt: Option<seq<Prepared>>): Db
    requires job in db.jobs
  {
    match attempt
    case None => SetStatus(db, job, Failed)
    case Some(rows) =>
      if Conflicts(db, db.jobs[job].version, |rows|) then db
      else SetStatus(InsertPrepared(db, db.jobs[job], rows), job, Succeeded)
  }

  /** The retry's cleanup; embeddings go with their chunks. */
  function DeleteChunks(db: Db, version: Uuid, organisation: Uuid, workspace: Uuid): Db {
    var stale := StaleKeys(db, version, organisation, workspace);
    db.(chunks := db.chunks - stale, embeddings := db.embeddings - stale)
  }

  function StaleKeys(db: Db, version: Uuid, organisation: Uuid, workspace: Uuid): set<ChunkKey> {
    set k | k in db.chunks && k.0 == version
            && db.chunks[k].organisation == organisation && db.chunks[k].workspace == workspace
  }

  // ----- the transition system -----

  /** A call between two of its transactions. */
  datatype Call =
    | UploadQueued(job: Uuid, content: Bytes)   // the queued job is committed
    | RetryQueued(job: Uuid)                    // reset to queued is committed, blob not yet loaded
    | RetryCleaned(job: Uuid, content: Bytes)   // stale rows removed
    | Ingesting(job: Uuid, content: Bytes)      // running is committed

  datatype System = System(db: Db, blobs: Blobs, calls: map<nat, Call>)

  datatype Action =
    | Upload(call: nat, version: Uuid, job: Uuid, row: Version, idempotencyKey: string, content: Bytes)
    | AbortUpload(key: StorageKey, content: Bytes)           // blob written, transaction rolled back
    | RetryBegin(call: nat, organisation: Uuid, workspace: Uuid, job: Uuid)
    | RetryClean(call: nat)
    | Start(call: nat)
    | Close(call: nat, embed: Embedder)
    | Crash(call: nat)                                       // also: an exception leaves the call

  ghost predicate Enabled(s: System, a: Action) {
    match a
    case Upload(call, version, job, row, key, _) =>
      && !KeyTaken(s.db, row.organisation, row.workspace, key)
      && call !in s.calls && version !in s.db.versions && job !in s.db.jobs && row.storageKey !in s.blobs
      && row.storageKey.version == version
    case AbortUpload(key, _) => key !in s.blobs
    case RetryBegin(call, organisation, workspace, job) =>
      && call !in s.calls && job in s.db.jobs
      && s.db.jobs[job].organisation == organisation && s.db.jobs[job].workspace == workspace
      && s.db.jobs[job].status == Failed
    case RetryClean(call) => call in s.calls && s.calls[call].RetryQueued? && Loadable(s, s.calls[call].job)
    case Start(call) =>
      call in s.calls && (s.calls[call].UploadQueued? || s.calls[call].RetryCleaned?) && s.calls[call].job in s.db.jobs
    case Close(call, _) =>
      call in s.calls && s.calls[call].Ingesting? && s.calls[call].job in s.db.jobs
      && s.db.jobs[s.calls[call].job].version in s.db.versions
    case Crash(call) => call in s.calls
  }

  ghost predicate Loadable(s: System, job: Uuid) {
    && job in s.db.jobs && s.db.jobs[job].version in s.db.versions
    && s.db.versions[s.db.jobs[job].version].storageKey in s.blobs
  }

  function BlobOf(s: System, version: Uuid): Bytes
    requires version in s.db.versions && s.db.versions[version].storageKey in s.blobs
  {
    s.blobs[s.db.versions[version].storageKey]
  }

  ghost function Apply(env: Environment, s: System, a: Action): System
    requires Configured(env) && Enabled(s, a)
  {
    match a
    case Upload(call, version, job, row, key, content) =>
      System(QueueUpload(s.db, version, job, row, key), s.blobs[row.storageKey := content],
             s.calls[call := UploadQueued(job, content)])
    case AbortUpload(key, content) => s.(blobs := s.blobs[key := content])
    case RetryBegin(call, _, _, job) =>
      s.(db := SetStatus(s.db, job, Queued), calls := s.calls[call := RetryQueued(job)])
    case RetryClean(call) =>
      var job := s.db.jobs[s.calls[call].job];
      s.(db := DeleteChunks(s.db, job.version, job.organisation, job.workspace),
         calls := s.calls[call := RetryCleaned(s.calls[call].job, BlobOf(s, job.version))])
    case Start(call) =>
      s.(db := SetStatus(s.db, s.calls[call].job, Running),
         calls := s.calls[call := Ingesting(s.calls[call].job, s.calls[call].content)])
    case Close(call, embed) =>
      var job := s.calls[call].job;
      var mediaType := s.db.versions[s.db.jobs[job].version].mediaType;
      s.(db := Finish(s.db, job, Attempt(env, s.calls[call].content, mediaType, embed)), calls := s.calls - {call})
    case Crash(call) => s.(calls := s.calls - {call})
  }

  const EMPTY := System(Db(map[], map[], map[], map[]), map[], map[])

  /** The system after a run; None when an action was not enabled where it occurs. */
  ghost function After(env: Environment, run: seq<Action>): Option<System>
    requires Configured(env)
  {
    if run == [] then Some(EMPTY)
    else
      match After(env, run[..|run| - 1])
      case None => None
      case Some(s) => if Enabled(s, run[|run| - 1]) then Some(Apply(env, s, run[|run| - 1])) else None
  }

  // ----- the invariant -----

  ghost predicate JobRowSound(s: System, j: Uuid)
    requires j in s.db.jobs
  {
    var job := s.db.jobs[j];
    && job.version in s.db.versions
    && s.db.versions[job.version].organisation == job.organisation
    && s.db.versions[job.version].workspace == job.workspace
    && s.db.versions[job.version].storageKey in s.blobs
  }

  ghost predicate NoRows(db: Db, version: Uuid) {
    && (forall i: nat :: (version, i) !in db.chunks)
    && (forall i: nat :: (version, i) !in db.embeddings)
  }

  /** The version's rows are exactly these chunks at indices 0..n-1, each with one embedding
      of its declared dimensions, all under the job's tenant. */
  ghost predicate RowsAre(db: Db, job: Job, chunks: seq<Chunker.Chunk>) {
    && (forall i: nat :: (job.version, i) in db.chunks <==> i < |chunks|)
    && (forall i: nat :: (job.version, i) in db.embeddings <==> i < |chunks|)
    && (forall i: nat :: i < |chunks| ==> db.chunks[(job.version, i)] == ChunkRow(job.organisation, job.workspace, chunks[i]))
    && (forall i: nat :: i < |chunks| ==>
          var e := db.embeddings[(job.version, i)];
          e.organisation == job.organisation && e.workspace == job.workspace && |e.embedding.vector| == e.embedding.dimensions)
  }

  /** What a succeeded version must hold, from its stored content alone. */
  ghost predicate Ingested(env: Environment, s: System, j: Uuid)
    requires Configured(env) && j in s.db.jobs && JobRowSound(s, j)
  {
    var job := s.db.jobs[j];
    var text := env.parse(BlobOf(s, job.version), s.db.versions[job.version].mediaType);
    text.Some? && RowsAre(s.db, job, Chunker.ChunksOf(text.value, env.config, env.sha256))
  }

  ghost predicate RowsMatchStatus(env: Environment, s: System, j: Uuid)
    requires Configured(env) && j in s.db.jobs && JobRowSound(s, j)
  {
    if s.db.jobs[j].status == Succeeded then Ingested(env, s, j) else NoRows(s.db, s.db.jobs[j].version)
  }

  ghost predicate CallSound(s: System, c: nat)
    requires c in s.calls
  {
    var call := s.calls[c];
    && call.job in s.db.jobs && JobRowSound(s, call.job)
    && s.db.jobs[call.job].status == (if call.Ingesting? then Running else Queued)
    && (!call.RetryQueued? ==> call.content == BlobOf(s, s.db.jobs[call.job].version))
  }

  ghost predicate JobsSound(env: Environment, s: System)
    requires Configured(env)
  {
    && (forall j :: j in s.db.jobs ==> JobRowSound(s, j) && RowsMatchStatus(env, s, j))
    && (forall j, k :: j in s.db.jobs && k in s.db.jobs && s.db.jobs[j].version == s.db.jobs[k].version ==> j == k)
    && (forall k :: k in s.db.chunks || k in s.db.embeddings ==> k.0 in s.db.versions)
    && (forall v :: v in s.db.versions ==> s.db.versions[v].storageKey.version == v)
  }

  ghost predicate CallsSound(s: System) {
    && (forall c :: c in s.calls ==> CallSound(s, c))
    && (forall c, d :: c in s.calls && d in s.calls && s.calls[c].job == s.calls[d].job ==> c == d)
  }

  ghost predicate Inv(env: Environment, s: System)
    requires Configured(env)
  {
    JobsSound(env, s) && CallsSound(s)
  }

  // ----- every action keeps the invariant -----

  /** Nothing that job `j` depends on differs, except perhaps its own status. */
  ghost predicate SameVersion(s: System, s': System, v: Uuid) {
    && v in s.db.versions && v in s'.db.versions && s'.db.versions[v] == s.db.versions[v]
    && (s.db.versions[v].storageKey in s.blobs ==>
          s.db.versions[v].storageKey in s'.blobs
          && s'.blobs[s.db.versions[v].storageKey] == s.blobs[s.db.versions[v].storageKey])
  }

  ghost predicate SameRows(db: Db, db': Db, v: Uuid) {
    && (forall i: nat :: (v, i) in db'.chunks <==> (v, i) in db.chunks)
    && (forall i: nat :: (v, i) in db'.embeddings <==> (v, i) in db.embeddings)
    && (forall i: nat :: (v, i) in db.chunks ==> db'.chunks[(v, i)] == db.chunks[(v, i)])
    && (forall i: nat :: (v, i) in db.embeddings ==> db'.embeddings[(v, i)] == db.embeddings[(v, i)])
  }

  lemma SameJobStaysSound(env: Environment, s: System, s': System, j: Uuid)
    requires Configured(env)
    requires j in s.db.jobs && JobRowSound(s, j) && RowsMatchStatus(env, s, j)
    requires j in s'.db.jobs && s'.db.jobs[j] == s.db.jobs[j]
    requires SameVersion(s, s', s.db.jobs[j].version) && SameRows(s.db, s'.db, s.db.jobs[j].version)
    ensures JobRowSound(s', j) && RowsMatchStatus(env, s', j)
  {
  }

  /** A status change that leaves the rows alone. */
  lemma StatusChangeKeepsJobs(env: Environment, s: System, j: Uuid, status: JobStatus)
    requires Configured(env) && JobsSound(env, s)
    requires j in s.db.jobs && s.db.jobs[j].status != Succeeded && status != Succeeded
    ensures JobsSound(env, s.(db := SetStatus(s.db, j, status)))
  {
    var s' := s.(db := SetStatus(s.db, j, status));
    forall k | k in s'.db.jobs ensures JobRowSound(s', k) && RowsMatchStatus(env, s', k) {
      assert JobRowSound(s, k) && RowsMatchStatus(env, s, k);
      if k != j { SameJobStaysSound(env, s, s', k); }
    }
  }

  lemma BlobGrowthKeepsJobs(env: Environment, s: System, key: StorageKey, content: Bytes)
    requires Configured(env) && JobsSound(env, s) && key !in s.blobs
    ensures JobsSound(env, s.(blobs := s.blobs[key := content]))
  {
    var s' := s.(blobs := s.blobs[key := content]);
    forall k | k in s'.db.jobs ensures JobRowSound(s', k) && RowsMatchStatus(env, s', k) {
      assert JobRowSound(s, k) && RowsMatchStatus(env, s, k);
      SameJobStaysSound(env, s, s', k);
    }
  }

  lemma QueueingKeepsOldJobs(env: Environment, s: System, version: Uuid, j: Uuid, row: Version, idempotencyKey: string, k: Uuid)
    requires Configured(env) && k in s.db.jobs && JobRowSound(s, k) && RowsMatchStatus(env, s, k)
    requires version !in s.db.versions && j !in s.db.jobs
    ensures var s' := s.(db := QueueUpload(s.db, version, j, row, idempotencyKey));
            k in s'.db.jobs && JobRowSound(s', k) && RowsMatchStatus(env, s', k) && s.db.jobs[k].version != version
  {
    SameJobStaysSound(env, s, s.(db := QueueUpload(s.db, version, j, row, idempotencyKey)), k);
  }

  lemma QueuedJobIsSound(env: Environment, s: System, version: Uuid, j: Uuid, row: Version, idempotencyKey: string)
    requires Configured(env) && NoRows(s.db, version) && row.storageKey in s.blobs
    ensures var s' := s.(db := QueueUpload(s.db, version, j, row, idempotencyKey));
            JobRowSound(s', j) && RowsMatchStatus(env, s', j)
  {
  }

  lemma QueueingKeepsJobs(env: Environment, s: System, version: Uuid, j: Uuid, row: Version, idempotencyKey: string)
    requires Configured(env) && JobsSound(env, s)
    requires version !in s.db.versions && j !in s.db.jobs && row.storageKey.version == version && row.storageKey in s.blobs
    ensures JobsSound(env, s.(db := QueueUpload(s.db, version, j, row, idempotencyKey)))
  {
    var s' := s.(db := QueueUpload(s.db, version, j, row, idempotencyKey));
    NewVersionHasNoRows(env, s, version);
    QueuedJobIsSound(env, s, version, j, row, idempotencyKey);
    forall k | k in s.db.jobs ensures JobRowSound(s', k) && RowsMatchStatus(env, s', k) && s.db.jobs[k].version != version {
      assert JobRowSound(s, k) && RowsMatchStatus(env, s, k);
      QueueingKeepsOldJobs(env, s, version, j, row, idempotencyKey, k);
    }
  }

  lemma NewVersionHasNoRows(env: Environment, s: System, version: Uuid)
    requires Configured(env) && JobsSound(env, s) && version !in s.db.versions
    ensures NoRows(s.db, version)
  {
    forall i: nat ensures (version, i) !in s.db.chunks && (version, i) !in s.db.embeddings {
      assert (version, i).0 == version;
    }
  }

  /** The retry's cleanup finds nothing to remove: a failed job has left no rows. */
  lemma CleanupRemovesNothing(env: Environment, s: System, j: Uuid)
    requires Configured(env) && JobsSound(env, s) && j in s.db.jobs && s.db.jobs[j].status != Succeeded
    ensures DeleteChunks(s.db, s.db.jobs[j].version, s.db.jobs[j].organisation, s.db.jobs[j].workspace) == s.db
  {
    var v := s.db.jobs[j].version;
    assert RowsMatchStatus(env, s, j);
    forall k | k in s.db.chunks ensures k.0 != v {
      assert k == (k.0, k.1);
    }
    var stale := StaleKeys(s.db, v, s.db.jobs[j].organisation, s.db.jobs[j].workspace);
    assert stale == {};
    assert s.db.chunks - stale == s.db.chunks && s.db.embeddings - stale == s.db.embeddings;
  }

  lemma NoRowsNoConflict(db: Db, version: Uuid, n: nat)
    requires NoRows(db, version)
    ensures !Conflicts(db, version, n)
  {
  }

  lemma InsertedRows(db: Db, job: Job, rows: seq<Prepared>, chunks: seq<Chunker.Chunk>)
    requires NoRows(db, job.version) && |rows| == |chunks|
    requires forall i :: 0 <= i < |rows| ==> rows[i].chunk == chunks[i] && |rows[i].embedding.vector| == rows[i].embedding.dimensions
    ensures RowsAre(InsertPrepared(db, job, rows), job, chunks)
  {
    var keys := NewKeys(job.version, |rows|);
    forall i: nat ensures (job.version, i) in keys <==> i < |rows| {
    }
  }

  lemma InsertedElsewhere(db: Db, job: Job, rows: seq<Prepared>, v: Uuid)
    requires v != job.version
    ensures SameRows(db, InsertPrepared(db, job, rows), v)
  {
    forall i: nat ensures (v, i) !in NewKeys(job.version, |rows|) {
    }
  }

  lemma SuccessKeepsJobs(env: Environment, s: System, j: Uuid, rows: seq<Prepared>, text: string)
    requires Configured(env) && JobsSound(env, s) && j in s.db.jobs && s.db.jobs[j].status == Running
    requires env.parse(BlobOf(s, s.db.jobs[j].version), s.db.versions[s.db.jobs[j].version].mediaType) == Some(text)
    requires exists embed :: Prepare(Chunker.ChunksOf(text, env.config, env.sha256), embed) == Some(rows)
    ensures JobsSound(env, s.(db := SetStatus(InsertPrepared(s.db, s.db.jobs[j], rows), j, Succeeded)))
  {
    var s' := s.(db := SetStatus(InsertPrepared(s.db, s.db.jobs[j], rows), j, Succeeded));
    var chunks := Chunker.ChunksOf(text, env.config, env.sha256);
    var embed :| Prepare(chunks, embed) == Some(rows);
    PreparedExactly(chunks, embed);
    assert RowsMatchStatus(env, s, j);
    InsertedRows(s.db, s.db.jobs[j], rows, chunks);
    forall k | k in s'.db.jobs ensures JobRowSound(s', k) && RowsMatchStatus(env, s', k) {
      assert JobRowSound(s, k) && RowsMatchStatus(env, s, k);
      if k != j {
        InsertedElsewhere(s.db, s.db.jobs[j], rows, s.db.jobs[k].version);
        SameJobStaysSound(env, s, s', k);
      } else {
        assert RowsAre(s'.db, s'.db.jobs[j], chunks);
      }
    }
    forall k | k in s'.db.chunks || k in s'.db.embeddings ensures k.0 in s'.db.versions {
      if k in NewKeys(s.db.jobs[j].version, |rows|) { assert k.0 == s.db.jobs[j].version; }
    }
  }

  lemma CloseKeepsJobs(env: Environment, s: System, c: nat, embed: Embedder)
    requires Configured(env) && Inv(env, s) && Enabled(s, Close(c, embed))
    ensures JobsSound(env, Apply(env, s, Close(c, embed)))
  {
    var j := s.calls[c].job;
    assert CallSound(s, c) && RowsMatchStatus(env, s, j);
    var job := s.db.jobs[j];
    var attempt := Attempt(env, s.calls[c].content, s.db.versions[job.version].mediaType, embed);
    var s1 := s.(db := Finish(s.db, j, attempt));
    match attempt {
      case None => StatusChangeKeepsJobs(env, s, j, Failed);
      case Some(rows) =>
        NoRowsNoConflict(s.db, job.version, |rows|);
        var text := env.parse(s.calls[c].content, s.db.versions[job.version].mediaType).value;
        assert Prepare(Chunker.ChunksOf(text, env.config, env.sha256), embed) == Some(rows);
        SuccessKeepsJobs(env, s, j, rows, text);
    }
    assert JobsSound(env, s1);
    CallsDoNotMatter(env, s1, Apply(env, s, Close(c, embed)));
  }

  lemma CallsDoNotMatter(env: Environment, s: System, s': System)
    requires Configured(env) && JobsSound(env, s) && s'.db == s.db && s'.blobs == s.blobs
    ensures JobsSound(env, s')
  {
    forall k | k in s'.db.jobs ensures JobRowSound(s', k) && RowsMatchStatus(env, s', k) {
      assert JobRowSound(s, k) && RowsMatchStatus(env, s, k);
      SameJobStaysSound(env, s, s', k);
    }
  }

  /** An action changes only what its own call and job are about. */
  ghost predicate LeavesCallAlone(s: System, s': System, c: nat)
    requires c in s.calls && CallSound(s, c)
  {
    var j := s.calls[c].job;
    && c in s'.calls && s'.calls[c] == s.calls[c]
    && j in s'.db.jobs && s'.db.jobs[j] == s.db.jobs[j]
    && SameVersion(s, s', s.db.jobs[j].version)
  }

  lemma OtherCallsStaySound(s: System, s': System, actor: nat)
    requires CallsSound(s)
    requires forall c :: c in s.calls && c != actor ==> LeavesCallAlone(s, s', c)
    requires forall c :: c in s'.calls && c != actor ==> c in s.calls
    requires actor in s'.calls ==>
               CallSound(s', actor) && forall c :: c in s.calls && c != actor ==> s.calls[c].job != s'.calls[actor].job
    ensures CallsSound(s')
  {
    forall c | c in s'.calls ensures CallSound(s', c) {
      if c != actor { assert CallSound(s, c) && LeavesCallAlone(s, s', c); }
    }
    forall c, d | c in s'.calls && d in s'.calls && s'.calls[c].job == s'.calls[d].job ensures c == d {
      assert c != actor ==> LeavesCallAlone(s, s', c);
      assert d != actor ==> LeavesCallAlone(s, s', d);
    }
  }

  lemma UploadKeeps(env: Environment, s: System, a: Action)
    requires Configured(env) && Inv(env, s) && Enabled(s, a) && a.Upload?
    ensures Inv(env, Apply(env, s, a))
  {
    var s1 := s.(blobs := s.blobs[a.row.storageKey := a.content]);
    BlobGrowthKeepsJobs(env, s, a.row.storageKey, a.content);
    QueueingKeepsJobs(env, s1, a.version, a.job, a.row, a.idempotencyKey);
    var s' := Apply(env, s, a);
    CallsDoNotMatter(env, s1.(db := QueueUpload(s1.db, a.version, a.job, a.row, a.idempotencyKey)), s');
    forall c | c in s.calls ensures LeavesCallAlone(s, s', c) {
      assert CallSound(s, c);
    }
    OtherCallsStaySound(s, s', a.call);
  }

  lemma AbortKeeps(env: Environment, s: System, key: StorageKey, content: Bytes)
    requires Configured(env) && Inv(env, s) && key !in s.blobs
    ensures Inv(env, Apply(env, s, AbortUpload(key, content)))
  {
    var s' := Apply(env, s, AbortUpload(key, content));
    BlobGrowthKeepsJobs(env, s, key, content);
    forall c | c in s'.calls ensures CallSound(s', c) {
      assert CallSound(s, c);
    }
  }

  lemma RetryBeginKeeps(env: Environment, s: System, a: Action)
    requires Configured(env) && Inv(env, s) && Enabled(s, a) && a.RetryBegin?
    ensures Inv(env, Apply(env, s, a))
  {
    var s' := Apply(env, s, a);
    StatusChangeKeepsJobs(env, s, a.job, Queued);
    CallsDoNotMatter(env, s.(db := SetStatus(s.db, a.job, Queued)), s');
    assert JobRowSound(s, a.job);
    forall c | c in s.calls ensures s.calls[c].job != a.job && LeavesCallAlone(s, s', c) {
      assert CallSound(s, c);
    }
    OtherCallsStaySound(s, s', a.call);
  }

  lemma RetryCleanKeeps(env: Environment, s: System, c: nat)
    requires Configured(env) && Inv(env, s) && Enabled(s, RetryClean(c))
    ensures Inv(env, Apply(env, s, RetryClean(c)))
  {
    var s' := Apply(env, s, RetryClean(c));
    assert CallSound(s, c);
    CleanupRemovesNothing(env, s, s.calls[c].job);
    CallsDoNotMatter(env, s, s');
    forall d | d in s.calls && d != c ensures LeavesCallAlone(s, s', d) {
      assert CallSound(s, d);
    }
    OtherCallsStaySound(s, s', c);
  }

  lemma StartKeeps(env: Environment, s: System, c: nat)
    requires Configured(env) && Inv(env, s) && Enabled(s, Start(c))
    ensures Inv(env, Apply(env, s, Start(c)))
  {
    var s' := Apply(env, s, Start(c));
    assert CallSound(s, c);
    StatusChangeKeepsJobs(env, s, s.calls[c].job, Running);
    CallsDoNotMatter(env, s.(db := SetStatus(s.db, s.calls[c].job, Running)), s');
    forall d | d in s.calls && d != c ensures s.calls[d].job != s.calls[c].job && LeavesCallAlone(s, s', d) {
      assert CallSound(s, d);
    }
    OtherCallsStaySound(s, s', c);
  }

  /** Closing one call touches no row another call depends on. */
  lemma ClosingLeavesCalls(env: Environment, s: System, c: nat, embed: Embedder, d: nat)
    requires Configured(env) && Enabled(s, Close(c, embed)) && d in s.calls && d != c && CallSound(s, d)
    requires s.calls[d].job != s.calls[c].job
    ensures LeavesCallAlone(s, Apply(env, s, Close(c, embed)), d)
  {
    var job := s.db.jobs[s.calls[c].job];
    FinishChangesOneJob(s.db, s.calls[c].job, Attempt(env, s.calls[c].content, s.db.versions[job.version].mediaType, embed));
  }

  lemma FinishChangesOneJob(db: Db, j: Uuid, attempt: Option<seq<Prepared>>)
    requires j in db.jobs
    ensures Finish(db, j, attempt).versions == db.versions
    ensures forall k :: k in db.jobs && k != j ==> k in Finish(db, j, attempt).jobs && Finish(db, j, attempt).jobs[k] == db.jobs[k]
  {
  }

  lemma CloseKeeps(env: Environment, s: System, c: nat, embed: Embedder)
    requires Configured(env) && Inv(env, s) && Enabled(s, Close(c, embed))
    ensures Inv(env, Apply(env, s, Close(c, embed)))
  {
    CloseKeepsJobs(env, s, c, embed);
    CloseKeepsCalls(env, s, c, embed);
  }

  lemma CloseKeepsCalls(env: Environment, s: System, c: nat, embed: Embedder)
    requires Configured(env) && CallsSound(s) && Enabled(s, Close(c, embed))
    ensures CallsSound(Apply(env, s, Close(c, embed)))
  {
    var s' := Apply(env, s, Close(c, embed));
    forall d | d in s.calls && d != c ensures LeavesCallAlone(s, s', d) {
      assert CallSound(s, d) && s.calls[d].job != s.calls[c].job;
      ClosingLeavesCalls(env, s, c, embed, d);
    }
    OtherCallsStaySound(s, s', c);
  }

  lemma CrashKeeps(env: Environment, s: System, c: nat)
    requires Configured(env) && Inv(env, s) && Enabled(s, Crash(c))
    ensures Inv(env, Apply(env, s, Crash(c)))
  {
    var s' := Apply(env, s, Crash(c));
    CallsDoNotMatter(env, s, s');
    forall d | d in s.calls && d != c ensures LeavesCallAlone(s, s', d) {
      assert CallSound(s, d);
    }
    OtherCallsStaySound(s, s', c);
  }

  lemma ActionKeeps(env: Environment, s: System, a: Action)
    requires Configured(env) && Inv(env, s) && Enabled(s, a)
    ensures Inv(env, Apply(env, s, a))
  {
    match a
    case Upload(_, _, _, _, _, _) => UploadKeeps(env, s, a);
    case AbortUpload(key, content) => AbortKeeps(env, s, key, content);
    case RetryBegin(_, _, _, _) => RetryBeginKeeps(env, s, a);
    case RetryClean(c) => RetryCleanKeeps(env, s, c);
    case Start(c) => StartKeeps(env, s, c);
    case Close(c, embed) => CloseKeeps(env, s, c, embed);
    case Crash(c) => CrashKeeps(env, s, c);
  }

  lemma {:induction false} RunsKeep(env: Environment, run: seq<Action>)
    requires Configured(env) && After(env, run).Some?
    ensures Inv(env, After(env, run).value)
  {
    if run != [] {
      RunsKeep(env, run[..|run| - 1]);
      ActionKeeps(env, After(env, run[..|run| - 1]).value, run[|run| - 1]);
    }
  }

  // ----- the claims over whole runs -----

  /** What the searches return: chunk rows of versions with a succeeded job. */
  ghost predicate Searchable(db: Db, k: ChunkKey) {
    k in db.chunks && exists j :: j in db.jobs && db.jobs[j].version == k.0 && db.jobs[j].status == Succeeded
  }

  /** In every committed state of every run, a version whose job is not succeeded has no
      rows and is never searched, and a succeeded one holds exactly the chunker's output
      of its stored content, each chunk with one embedding of its declared dimensions. */
  lemma CommittedStatesAreSound(env: Environment, run: seq<Action>, j: Uuid)
    requires Configured(env) && After(env, run).Some? && j in After(env, run).value.db.jobs
    ensures var s := After(env, run).value;
            && JobRowSound(s, j)
            && (s.db.jobs[j].status != Succeeded ==>
                  NoRows(s.db, s.db.jobs[j].version)
                  && forall i: nat :: !Searchable(s.db, (s.db.jobs[j].version, i)))
            && (s.db.jobs[j].status == Succeeded ==> Ingested(env, s, j))
  {
    RunsKeep(env, run);
    var s := After(env, run).value;
    assert JobRowSound(s, j) && RowsMatchStatus(env, s, j);
  }

  /** Retrying is idempotent: however often and however an ingestion failed before it
      succeeded, its chunks are those of any other successful ingestion of that content. */
  lemma RetryIsIdempotent(env: Environment, run1: seq<Action>, j1: Uuid, run2: seq<Action>, j2: Uuid)
    requires Configured(env) && After(env, run1).Some? && After(env, run2).Some?
    requires var s1, s2 := After(env, run1).value, After(env, run2).value;
             && j1 in s1.db.jobs && j2 in s2.db.jobs && JobRowSound(s1, j1) && JobRowSound(s2, j2)
             && s1.db.jobs[j1].status == Succeeded && s2.db.jobs[j2].status == Succeeded
             && BlobOf(s1, s1.db.jobs[j1].version) == BlobOf(s2, s2.db.jobs[j2].version)
             && s1.db.versions[s1.db.jobs[j1].version].mediaType == s2.db.versions[s2.db.jobs[j2].version].mediaType
    ensures var s1, s2 := After(env, run1).value, After(env, run2).value;
            var v1, v2 := s1.db.jobs[j1].version, s2.db.jobs[j2].version;
            && (forall i: nat :: (v1, i) in s1.db.chunks <==> (v2, i) in s2.db.chunks)
            && (forall i: nat :: (v1, i) in s1.db.chunks && (v2, i) in s2.db.chunks ==>
                  s1.db.chunks[(v1, i)].chunk == s2.db.chunks[(v2, i)].chunk)
  {
    CommittedStatesAreSound(env, run1, j1);
    CommittedStatesAreSound(env, run2, j2);
    var s1, s2 := After(env, run1).value, After(env, run2).value;
    var v1, v2 := s1.db.jobs[j1].version, s2.db.jobs[j2].version;
    var text := env.parse(BlobOf(s1, v1), s1.db.versions[v1].mediaType).value;
    var chunks := Chunker.ChunksOf(text, env.config, env.sha256);
    assert RowsAre(s1.db, s1.db.jobs[j1], chunks) && RowsAre(s2.db, s2.db.jobs[j2], chunks);
    forall i: nat ensures (v1, i) in s1.db.chunks <==> i < |chunks| {
    }
    forall i: nat ensures (v2, i) in s2.db.chunks <==> i < |chunks| {
    }
  }

  /** The stored content of a version never changes after its upload. */
  lemma BlobsAreImmutable(env: Environment, s: System, a: Action, v: Uuid)
    requires Configured(env) && Enabled(s, a)
    requires v in s.db.versions && s.db.versions[v].storageKey in s.blobs
    ensures SameVersion(s, Apply(env, s, a), v)
  {
  }

  /** What an action does to one job's status. */
  ghost predicate FollowsTable(db: Db, db': Db, j: Uuid) {
    && j in db'.jobs
    && (if j in db.jobs then db'.jobs[j].status == db.jobs[j].status || db'.jobs[j].status in Transitions(db.jobs[j].status)
        else db'.jobs[j].status == Queued)
  }

  lemma ClosingFollowsTable(db: Db, closed: Uuid, attempt: Option<seq<Prepared>>, j: Uuid)
    requires closed in db.jobs && db.jobs[closed].status == Running && j in db.jobs
    ensures FollowsTable(db, Finish(db, closed, attempt), j)
  {
  }

  lemma SimpleActionFollowsTable(env: Environment, s: System, a: Action, j: Uuid)
    requires Configured(env) && Enabled(s, a) && !a.Close? && j in Apply(env, s, a).db.jobs
    requires a.Start? ==> s.db.jobs[s.calls[a.call].job].status == Queued
    ensures FollowsTable(s.db, Apply(env, s, a).db, j)
  {
  }

  /** Although no code calls the transition check, every status any transaction writes is an
      edge of the transition table, and new jobs start queued. */
  lemma StatusesFollowTheTable(env: Environment, s: System, a: Action, j: Uuid)
    requires Configured(env) && Inv(env, s) && Enabled(s, a)
    requires j in Apply(env, s, a).db.jobs
    ensures FollowsTable(s.db, Apply(env, s, a).db, j)
  {
    if a.Close? {
      ClosingJobFollowsTable(env, s, a.call, a.embed, j);
    } else {
      if a.Start? { assert CallSound(s, a.call); }
      SimpleActionFollowsTable(env, s, a, j);
    }
  }

  lemma ClosingJobFollowsTable(env: Environment, s: System, c: nat, embed: Embedder, j: Uuid)
    requires Configured(env) && CallsSound(s) && Enabled(s, Close(c, embed))
    requires j in Apply(env, s, Close(c, embed)).db.jobs
    ensures FollowsTable(s.db, Apply(env, s, Close(c, embed)).db, j)
  {
    assert CallSound(s, c);
    var attempt := Attempt(env, s.calls[c].content, s.db.versions[s.db.jobs[s.calls[c].job].version].mediaType, embed);
    FinishKeepsJobs(s.db, s.calls[c].job, attempt);
    ClosingFollowsTable(s.db, s.calls[c].job, attempt, j);
  }

  lemma FinishKeepsJobs(db: Db, j: Uuid, attempt: Option<seq<Prepared>>)
    requires j in db.jobs
    ensures Finish(db, j, attempt).jobs.Keys == db.jobs.Keys
  {
  }

  ghost predicate Untouched(s: System, s': System, j: Uuid)
    requires j in s.db.jobs
  {
    j in s'.db.jobs && s'.db.jobs[j] == s.db.jobs[j] && SameRows(s.db, s'.db, s.db.jobs[j].version)
  }

  /** Actions that only change calls, blobs, or the row of one other job. */
  lemma SimpleActionLeavesSuccess(env: Environment, s: System, a: Action, j: Uuid)
    requires Configured(env) && Enabled(s, a) && !a.RetryClean? && !a.Close?
    requires j in s.db.jobs && s.db.jobs[j].status == Succeeded
    requires a.Start? ==> s.calls[a.call].job != j
    ensures Untouched(s, Apply(env, s, a), j)
  {
  }

  /** A job is never deleted, and once succeeded it stays so with its rows untouched. */
  lemma SuccessIsFinal(env: Environment, s: System, a: Action, j: Uuid)
    requires Configured(env) && Inv(env, s) && Enabled(s, a)
    requires j in s.db.jobs && s.db.jobs[j].status == Succeeded
    ensures Untouched(s, Apply(env, s, a), j)
  {
    match a
    case RetryClean(c) =>
      assert CallSound(s, c);
      CleanupRemovesNothing(env, s, s.calls[c].job);
    case Start(c) =>
      assert CallSound(s, c);
      SimpleActionLeavesSuccess(env, s, a, j);
    case Close(c, embed) => ClosingLeavesOthers(env, s, c, embed, j);
    case _ => SimpleActionLeavesSuccess(env, s, a, j);
  }

  lemma FinishLeavesOthers(db: Db, closed: Uuid, attempt: Option<seq<Prepared>>, j: Uuid)
    requires closed in db.jobs && j in db.jobs && j != closed && db.jobs[j].version != db.jobs[closed].version
    ensures var db' := Finish(db, closed, attempt);
            j in db'.jobs && db'.jobs[j] == db.jobs[j] && SameRows(db, db', db.jobs[j].version)
  {
    if attempt.Some? { InsertedElsewhere(db, db.jobs[closed], attempt.value, db.jobs[j].version); }
  }

  lemma ClosingLeavesOthers(env: Environment, s: System, c: nat, embed: Embedder, j: Uuid)
    requires Configured(env) && Inv(env, s) && Enabled(s, Close(c, embed))
    requires j in s.db.jobs && s.db.jobs[j].status == Succeeded
    ensures var s' := Apply(env, s, Close(c, embed));
            j in s'.db.jobs && s'.db.jobs[j] == s.db.jobs[j] && SameRows(s.db, s'.db, s.db.jobs[j].version)
  {
    assert CallSound(s, c);
    var k := s.calls[c].job;
    var job := s.db.jobs[k];
    assert k != j && job.version != s.db.jobs[j].version;
    FinishLeavesOthers(s.db, k, Attempt(env, s.calls[c].content, s.db.versions[job.version].mediaType, embed), j);
  }

  // ----- nothing but a crash stops a call -----

  /** What a call between two of its transactions needs for the next one. */
  ghost predicate Proceeds(s: System, c: nat)
    requires c in s.calls
  {
    var call := s.calls[c];
    && call.job in s.db.jobs
    && (call.UploadQueued? || call.RetryCleaned? ==> Enabled(s, Start(c)) && s.db.jobs[call.job].status == Queued)
    && (call.RetryQueued? ==> Enabled(s, RetryClean(c)))
    && (call.Ingesting? ==> s.db.jobs[call.job].status == Running && forall embed :: Enabled(s, Close(c, embed)))
  }

  lemma SoundCallProceeds(s: System, c: nat)
    requires c in s.calls && CallSound(s, c)
    ensures Proceeds(s, c)
  {
  }

  /** Nothing removes a job or its version: a call that reaches its ingestion phase finds the
      row, queued, and later running, in every interleaving. */
  lemma JobIsAlwaysFound(env: Environment, run: seq<Action>, c: nat)
    requires Configured(env) && After(env, run).Some? && c in After(env, run).value.calls
    ensures Proceeds(After(env, run).value, c)
  {
    RunsKeep(env, run);
    SoundCallProceeds(After(env, run).value, c);
  }

  /** A job whose call is gone while it was queued or running. */
  ghost predicate Stranded(s: System, j: Uuid) {
    && j in s.db.jobs && (s.db.jobs[j].status == Queued || s.db.jobs[j].status == Running)
    && forall c :: c in s.calls ==> s.calls[c].job != j
  }

  lemma StrandedStep(env: Environment, s: System, a: Action, j: Uuid)
    requires Configured(env) && Enabled(s, a) && Stranded(s, j)
    ensures Stranded(Apply(env, s, a), j) && Apply(env, s, a).db.jobs[j] == s.db.jobs[j]
  {
    var s' := Apply(env, s, a);
    forall c | c in s'.calls ensures s'.calls[c].job != j {
      if c in s.calls { assert s.calls[c].job != j; }
    }
  }

  /** Only failed jobs can be retried, so a crash, or a blob that cannot be read by a retry,
      leaves a job that no later action of any call ever finishes. */
  lemma {:induction false} StrandedForever(env: Environment, run: seq<Action>, more: seq<Action>, j: Uuid)
    requires Configured(env) && After(env, run).Some? && After(env, run + more).Some?
    requires Stranded(After(env, run).value, j)
    ensures Stranded(After(env, run + more).value, j)
    ensures After(env, run + more).value.db.jobs[j] == After(env, run).value.db.jobs[j]
    decreases |more|
  {
    if more == [] {
      assert run + more == run;
    } else {
      var front := more[..|more| - 1];
      assert (run + more)[..|run + more| - 1] == run + front;
      StrandedForever(env, run, front, j);
      StrandedStep(env, After(env, run + front).value, more[|more| - 1], j);
    }
  }

  // ----- which unfinished jobs can still be finished -----

  lemma Extend(env: Environment, run: seq<Action>, a: Action)
    requires Configured(env) && After(env, run).Some? && Enabled(After(env, run).value, a)
    ensures After(env, run + [a]) == Some(Apply(env, After(env, run).value, a))
  {
    assert (run + [a])[..|run + [a]| - 1] == run;
  }

  /** In any run, whenever a call dies it leaves its job stranded. */
  lemma EveryCrashStrands(env: Environment, run: seq<Action>, c: nat)
    requires Configured(env) && After(env, run).Some? && c in After(env, run).value.calls
    ensures After(env, run + [Crash(c)]).Some?
    ensures Stranded(After(env, run + [Crash(c)]).value, After(env, run).value.calls[c].job)
  {
    var s := After(env, run).value;
    RunsKeep(env, run);
    Extend(env, run, Crash(c));
    assert CallSound(s, c);
    forall d | d in s.calls && d != c ensures s.calls[d].job != s.calls[c].job {
    }
  }

  const WITNESS_ROW := Version(0, 0, StorageKey(0, 0, 0, 0), "")
  const WITNESS_UPLOAD := Upload(0, 0, 0, WITNESS_ROW, "", [])

  lemma WitnessQueued(env: Environment)
    requires Configured(env)
    ensures After(env, [WITNESS_UPLOAD]).Some?
    ensures var s := After(env, [WITNESS_UPLOAD]).value;
            && s.calls == map[0 := UploadQueued(0, [])] && s.db.jobs == map[0 := Job(0, 0, 0, Queued, "")]
            && s.db.versions == map[0 := WITNESS_ROW] && s.blobs == map[WITNESS_ROW.storageKey := []]
  {
    assert After(env, []) == Some(EMPTY);
    Extend(env, [], WITNESS_UPLOAD);
    assert [] + [WITNESS_UPLOAD] == [WITNESS_UPLOAD];
  }

  /** A run that strands a job: an upload dies before its ingestion starts. */
  lemma UploadCanStrand(env: Environment)
    requires Configured(env)
    ensures After(env, [WITNESS_UPLOAD, Crash(0)]).Some? && Stranded(After(env, [WITNESS_UPLOAD, Crash(0)]).value, 0)
  {
    WitnessQueued(env);
    EveryCrashStrands(env, [WITNESS_UPLOAD], 0);
    assert [WITNESS_UPLOAD] + [Crash(0)] == [WITNESS_UPLOAD, Crash(0)];
  }

  function NoEmbedding(n: nat, text: string): Option<Embedding> {
    None
  }

  function EmptyEmbedding(n: nat, text: string): Option<Embedding> {
    Some(Embedding("", [], 0))
  }

  lemma WitnessFailed(env: Environment) returns (run: seq<Action>)
    requires Configured(env) && env.parse([], "").None?
    ensures run == [WITNESS_UPLOAD, Start(0), Close(0, NoEmbedding)] && After(env, run).Some?
    ensures var s := After(env, run).value;
            s.calls == map[] && s.db.jobs == map[0 := Job(0, 0, 0, Failed, "")]
  {
    WitnessQueued(env);
    Extend(env, [WITNESS_UPLOAD], Start(0));
    Extend(env, [WITNESS_UPLOAD] + [Start(0)], Close(0, NoEmbedding));
    run := [WITNESS_UPLOAD] + [Start(0)] + [Close(0, NoEmbedding)];
  }

  /** A run that strands a job by a retry: the job fails once, its retry commits the reset to
      queued, and then the blob cannot be read. */
  lemma RetryCanStrand(env: Environment) returns (run: seq<Action>)
    requires Configured(env) && env.parse([], "").None?
    ensures run == [WITNESS_UPLOAD, Start(0), Close(0, NoEmbedding), RetryBegin(0, 0, 0, 0), Crash(0)]
    ensures After(env, run).Some? && Stranded(After(env, run).value, 0)
  {
    var failed := WitnessFailed(env);
    Extend(env, failed, RetryBegin(0, 0, 0, 0));
    EveryCrashStrands(env, failed + [RetryBegin(0, 0, 0, 0)], 0);
    run := failed + [RetryBegin(0, 0, 0, 0)] + [Crash(0)];
  }

  /** The attempt that ingesting the job's stored content makes. */
  ghost function AttemptOn(env: Environment, s: System, j: Uuid, embed: Embedder): Option<seq<Prepared>>
    requires Configured(env) && j in s.db.jobs && JobRowSound(s, j)
  {
    Attempt(env, BlobOf(s, s.db.jobs[j].version), s.db.versions[s.db.jobs[j].version].mediaType, embed)
  }

  ghost function Outcome(attempt: Option<seq<Prepared>>): JobStatus {
    if attempt.Some? then Succeeded else Failed
  }

  /** The run goes on to a state in which the job has this status. */
  ghost predicate Reaches(env: Environment, run: seq<Action>, more: seq<Action>, j: Uuid, status: JobStatus)
    requires Configured(env)
  {
    && After(env, run + more).Some?
    && j in After(env, run + more).value.db.jobs && After(env, run + more).value.db.jobs[j].status == status
  }

  lemma CloseReaches(env: Environment, run: seq<Action>, c: nat, embed: Embedder)
    requires Configured(env) && After(env, run).Some? && c in After(env, run).value.calls
    requires After(env, run).value.calls[c].Ingesting?
    ensures var s := After(env, run).value;
            var j := s.calls[c].job;
            j in s.db.jobs && JobRowSound(s, j) && Reaches(env, run, [Close(c, embed)], j, Outcome(AttemptOn(env, s, j, embed)))
  {
    var s := After(env, run).value;
    RunsKeep(env, run);
    assert CallSound(s, c);
    var j := s.calls[c].job;
    assert RowsMatchStatus(env, s, j);
    Extend(env, run, Close(c, embed));
    var attempt := AttemptOn(env, s, j, embed);
    if attempt.Some? { NoRowsNoConflict(s.db, s.db.jobs[j].version, |attempt.value|); }
    FinishedStatus(s.db, j, attempt);
  }

  lemma FinishedStatus(db: Db, j: Uuid, attempt: Option<seq<Prepared>>)
    requires j in db.jobs && (attempt.Some? ==> !Conflicts(db, db.jobs[j].version, |attempt.value|))
    ensures j in Finish(db, j, attempt).jobs && Finish(db, j, attempt).jobs[j].status == Outcome(attempt)
  {
  }

  /** One more action, after which the job's stored content is the same. */
  lemma StepOn(env: Environment, run: seq<Action>, a: Action, j: Uuid, embed: Embedder)
    requires Configured(env) && After(env, run).Some? && Enabled(After(env, run).value, a)
    requires j in After(env, run).value.db.jobs && JobRowSound(After(env, run).value, j)
    ensures After(env, run + [a]) == Some(Apply(env, After(env, run).value, a))
    ensures var s' := After(env, run + [a]).value;
            j in s'.db.jobs && JobRowSound(s', j) && AttemptOn(env, s', j, embed) == AttemptOn(env, After(env, run).value, j, embed)
  {
    Extend(env, run, a);
    BlobsAreImmutable(env, After(env, run).value, a, After(env, run).value.db.jobs[j].version);
    JobsKeepVersions(env, After(env, run).value, a, j);
  }

  lemma JobsKeepVersions(env: Environment, s: System, a: Action, j: Uuid)
    requires Configured(env) && Enabled(s, a) && j in s.db.jobs
    ensures j in Apply(env, s, a).db.jobs
    ensures Apply(env, s, a).db.jobs[j].(status := Queued) == s.db.jobs[j].(status := Queued)
  {
    if a.Close? {
      FinishKeepsVersions(s.db, s.calls[a.call].job,
                          Attempt(env, s.calls[a.call].content, s.db.versions[s.db.jobs[s.calls[a.call].job].version].mediaType, a.embed), j);
    }
  }

  lemma FinishKeepsVersions(db: Db, closed: Uuid, attempt: Option<seq<Prepared>>, j: Uuid)
    requires closed in db.jobs && j in db.jobs
    ensures j in Finish(db, closed, attempt).jobs
    ensures Finish(db, closed, attempt).jobs[j].(status := Queued) == db.jobs[j].(status := Queued)
  {
  }

  lemma ReachesThrough(env: Environment, run: seq<Action>, a: Action, more: seq<Action>, j: Uuid, status: JobStatus)
    requires Configured(env) && Reaches(env, run + [a], more, j, status)
    ensures Reaches(env, run, [a] + more, j, status)
  {
    assert run + [a] + more == run + ([a] + more);
  }

  lemma StartReaches(env: Environment, run: seq<Action>, c: nat, embed: Embedder) returns (more: seq<Action>)
    requires Configured(env) && After(env, run).Some? && c in After(env, run).value.calls
    requires var call := After(env, run).value.calls[c]; call.UploadQueued? || call.RetryCleaned?
    ensures var s := After(env, run).value;
            var j := s.calls[c].job;
            j in s.db.jobs && JobRowSound(s, j) && Reaches(env, run, more, j, Outcome(AttemptOn(env, s, j, embed)))
  {
    JobIsAlwaysFound(env, run, c);
    SoundCall(env, run, c);
    StepOn(env, run, Start(c), After(env, run).value.calls[c].job, embed);
    CloseReaches(env, run + [Start(c)], c, embed);
    more := [Start(c)] + [Close(c, embed)];
    ReachesThrough(env, run, Start(c), [Close(c, embed)], After(env, run).value.calls[c].job,
                   Outcome(AttemptOn(env, After(env, run).value, After(env, run).value.calls[c].job, embed)));
  }

  lemma SoundCall(env: Environment, run: seq<Action>, c: nat)
    requires Configured(env) && After(env, run).Some? && c in After(env, run).value.calls
    ensures var s := After(env, run).value; s.calls[c].job in s.db.jobs && JobRowSound(s, s.calls[c].job)
  {
    RunsKeep(env, run);
    assert CallSound(After(env, run).value, c);
  }

  /** A call in progress can always be carried to the end of its ingestion. */
  lemma CallReaches(env: Environment, run: seq<Action>, c: nat, embed: Embedder) returns (more: seq<Action>)
    requires Configured(env) && After(env, run).Some? && c in After(env, run).value.calls
    ensures var s := After(env, run).value;
            var j := s.calls[c].job;
            j in s.db.jobs && JobRowSound(s, j) && Reaches(env, run, more, j, Outcome(AttemptOn(env, s, j, embed)))
  {
    var s := After(env, run).value;
    SoundCall(env, run, c);
    if s.calls[c].Ingesting? {
      CloseReaches(env, run, c, embed);
      more := [Close(c, embed)];
    } else if s.calls[c].RetryQueued? {
      JobIsAlwaysFound(env, run, c);
      StepOn(env, run, RetryClean(c), s.calls[c].job, embed);
      var rest := StartReaches(env, run + [RetryClean(c)], c, embed);
      more := [RetryClean(c)] + rest;
      ReachesThrough(env, run, RetryClean(c), rest, s.calls[c].job, Outcome(AttemptOn(env, s, s.calls[c].job, embed)));
    } else {
      more := StartReaches(env, run, c, embed);
    }
  }

  lemma {:induction false} FreshId(taken: set<nat>) returns (c: nat)
    ensures forall t :: t in taken ==> t < c
  {
    if taken == {} {
      c := 0;
    } else {
      var t :| t in taken;
      var d := FreshId(taken - {t});
      c := if d <= t then t + 1 else d;
      forall u | u in taken ensures u < c { assert u == t || u in taken - {t}; }
    }
  }

  /** A failed job can always be retried to the end. */
  lemma RetryReaches(env: Environment, run: seq<Action>, j: Uuid, embed: Embedder) returns (more: seq<Action>)
    requires Configured(env) && After(env, run).Some? && j in After(env, run).value.db.jobs
    requires After(env, run).value.db.jobs[j].status == Failed && JobRowSound(After(env, run).value, j)
    ensures Reaches(env, run, more, j, Outcome(AttemptOn(env, After(env, run).value, j, embed)))
  {
    var s := After(env, run).value;
    var c := FreshId(s.calls.Keys);
    var begin := RetryBegin(c, s.db.jobs[j].organisation, s.db.jobs[j].workspace, j);
    StepOn(env, run, begin, j, embed);
    var rest := CallReaches(env, run + [begin], c, embed);
    more := [begin] + rest;
    ReachesThrough(env, run, begin, rest, j, Outcome(AttemptOn(env, s, j, embed)));
  }

  lemma NotStrandedHasCall(s: System, j: Uuid) returns (c: nat)
    requires j in s.db.jobs && !Stranded(s, j) && (s.db.jobs[j].status == Queued || s.db.jobs[j].status == Running)
    ensures c in s.calls && s.calls[c].job == j
  {
    c :| c in s.calls && s.calls[c].job == j;
  }

  /** No code cancels a job. */
  lemma {:induction false} NeverCancelled(env: Environment, run: seq<Action>, j: Uuid)
    requires Configured(env) && After(env, run).Some? && j in After(env, run).value.db.jobs
    ensures After(env, run).value.db.jobs[j].status != Cancelled
  {
    var front, a := run[..|run| - 1], run[|run| - 1];
    var s := After(env, front).value;
    if j in s.db.jobs { NeverCancelled(env, front, j); }
    ActionNeverCancels(env, s, a, j);
  }

  lemma ActionNeverCancels(env: Environment, s: System, a: Action, j: Uuid)
    requires Configured(env) && Enabled(s, a) && j in Apply(env, s, a).db.jobs
    requires j in s.db.jobs ==> s.db.jobs[j].status != Cancelled
    ensures Apply(env, s, a).db.jobs[j].status != Cancelled
  {
  }

  /** Over every run, a job has a continuation in which it ends succeeded or failed exactly
      when it is not stranded. */
  lemma FinishableExactlyWhenNotStranded(env: Environment, run: seq<Action>, j: Uuid)
    requires Configured(env) && After(env, run).Some? && j in After(env, run).value.db.jobs
    ensures (exists more :: Reaches(env, run, more, j, Succeeded) || Reaches(env, run, more, j, Failed))
            <==> !Stranded(After(env, run).value, j)
  {
    var s := After(env, run).value;
    NeverCancelled(env, run, j);
    if more :| Reaches(env, run, more, j, Succeeded) || Reaches(env, run, more, j, Failed) {
      if Stranded(s, j) { StrandedForever(env, run, more, j); }
    }
    if !Stranded(s, j) {
      if s.db.jobs[j].status == Failed || s.db.jobs[j].status == Succeeded {
        assert run + [] == run;
        assert Reaches(env, run, [], j, s.db.jobs[j].status);
      } else {
        var c := NotStrandedHasCall(s, j);
        var more := CallReaches(env, run, c, NoEmbedding);
        assert Reaches(env, run, more, j, Succeeded) || Reaches(env, run, more, j, Failed);
      }
    }
  }

  // ----- which jobs can still succeed -----

  lemma {:induction false} EmptyEmbeddingsPrepare(chunks: seq<Chunker.Chunk>)
    ensures Prepare(chunks, EmptyEmbedding).Some?
  {
    if chunks != [] { EmptyEmbeddingsPrepare(chunks[..|chunks| - 1]); }
  }

  ghost predicate Parses(env: Environment, s: System, j: Uuid)
    requires j in s.db.jobs && JobRowSound(s, j)
  {
    env.parse(BlobOf(s, s.db.jobs[j].version), s.db.versions[s.db.jobs[j].version].mediaType).Some?
  }

  lemma {:induction false} ParsesForever(env: Environment, run: seq<Action>, more: seq<Action>, j: Uuid)
    requires Configured(env) && After(env, run).Some? && After(env, run + more).Some?
    requires j in After(env, run).value.db.jobs && JobRowSound(After(env, run).value, j)
    ensures j in After(env, run + more).value.db.jobs && JobRowSound(After(env, run + more).value, j)
    ensures Parses(env, After(env, run + more).value, j) == Parses(env, After(env, run).value, j)
    decreases |more|
  {
    if more == [] {
      assert run + more == run;
    } else {
      var front, a := more[..|more| - 1], more[|more| - 1];
      assert (run + more)[..|run + more| - 1] == run + front;
      ParsesForever(env, run, front, j);
      var s := After(env, run + front).value;
      BlobsAreImmutable(env, s, a, s.db.jobs[j].version);
      JobsKeepVersions(env, s, a, j);
    }
  }

  lemma SuccessReachable(env: Environment, run: seq<Action>, j: Uuid) returns (more: seq<Action>)
    requires Configured(env) && After(env, run).Some? && j in After(env, run).value.db.jobs
    requires var s := After(env, run).value;
             JobRowSound(s, j) && Parses(env, s, j) && !Stranded(s, j)
    ensures Reaches(env, run, more, j, Succeeded)
  {
    var s := After(env, run).value;
    NeverCancelled(env, run, j);
    AttemptSucceeds(env, s, j);
    if s.db.jobs[j].status == Succeeded {
      more := [];
      assert run + [] == run;
    } else if s.db.jobs[j].status == Failed {
      more := RetryReaches(env, run, j, EmptyEmbedding);
    } else {
      var c := NotStrandedHasCall(s, j);
      more := CallReaches(env, run, c, EmptyEmbedding);
    }
  }

  lemma AttemptSucceeds(env: Environment, s: System, j: Uuid)
    requires Configured(env) && j in s.db.jobs && JobRowSound(s, j) && Parses(env, s, j)
    ensures Outcome(AttemptOn(env, s, j, EmptyEmbedding)) == Succeeded
  {
    var text := env.parse(BlobOf(s, s.db.jobs[j].version), s.db.versions[s.db.jobs[j].version].mediaType).value;
    EmptyEmbeddingsPrepare(Chunker.ChunksOf(text, env.config, env.sha256));
  }

  lemma SuccessMeans(env: Environment, run: seq<Action>, more: seq<Action>, j: Uuid)
    requires Configured(env) && After(env, run).Some? && j in After(env, run).value.db.jobs
    requires JobRowSound(After(env, run).value, j) && Reaches(env, run, more, j, Succeeded)
    ensures !Stranded(After(env, run).value, j) && Parses(env, After(env, run).value, j)
  {
    CommittedStatesAreSound(env, run + more, j);
    ParsesForever(env, run, more, j);
    if Stranded(After(env, run).value, j) { StrandedForever(env, run, more, j); }
  }

  /** Over every run, a job can still end succeeded exactly when it is not stranded and its
      stored content parses: retries make up for every other failure. */
  lemma SucceedsExactlyWhenParseable(env: Environment, run: seq<Action>, j: Uuid)
    requires Configured(env) && After(env, run).Some? && j in After(env, run).value.db.jobs
    ensures JobRowSound(After(env, run).value, j)
    ensures (exists more :: Reaches(env, run, more, j, Succeeded))
            <==> !Stranded(After(env, run).value, j) && Parses(env, After(env, run).value, j)
  {
    var s := After(env, run).value;
    CommittedStatesAreSound(env, run, j);
    if more :| Reaches(env, run, more, j, Succeeded) { SuccessMeans(env, run, more, j); }
    if !Stranded(s, j) && Parses(env, s, j) {
      var more := SuccessReachable(env, run, j);
      assert Reaches(env, run, more, j, Succeeded);
    }
  }

  // ----- whose embeddings are stored -----

  ghost function ChunksFor(env: Environment, s: System, j: Uuid): Option<seq<Chunker.Chunk>>
    requires env.config.Valid() && j in s.db.jobs && JobRowSound(s, j)
  {
    match env.parse(BlobOf(s, s.db.jobs[j].version), s.db.versions[s.db.jobs[j].version].mediaType)
    case None => None
    case Some(text) => Some(Chunker.ChunksOf(text, env.config, env.sha256))
  }

  /** The embedder answers soundly for every chunk of the job's stored content, ... */
  ghost predicate Ingestible(env: Environment, s: System, j: Uuid, embed: Embedder)
    requires Configured(env) && j in s.db.jobs && JobRowSound(s, j)
  {
    ChunksFor(env, s, j).Some? && EmbedsAll(ChunksFor(env, s, j).value, embed)
  }

  /** ... and each stored embedding is its answer for that very chunk's text. */
  ghost predicate EmbeddedBy(env: Environment, s: System, j: Uuid, embed: Embedder)
    requires Configured(env) && j in s.db.jobs && JobRowSound(s, j)
  {
    var v := s.db.jobs[j].version;
    Ingestible(env, s, j, embed)
    && forall i: nat :: i < |ChunksFor(env, s, j).value| ==>
         && (v, i) in s.db.embeddings
         && embed(i, ChunksFor(env, s, j).value[i].chunkText) == Some(s.db.embeddings[(v, i)].embedding)
  }

  lemma InsertedEmbeddings(db: Db, job: Job, rows: seq<Prepared>)
    ensures forall i: nat :: i < |rows| ==>
              var db' := InsertPrepared(db, job, rows);
              (job.version, i) in db'.embeddings && db'.embeddings[(job.version, i)].embedding == rows[i].embedding
  {
    forall i: nat | i < |rows| ensures (job.version, i) in NewKeys(job.version, |rows|) {
    }
  }

  /** The closing commit makes the job succeed exactly when its content parses and every chunk's
      own text is embedded soundly, and then stores those embeddings; otherwise it fails. */
  lemma ClosesExactly(env: Environment, s: System, c: nat, embed: Embedder)
    requires Configured(env) && Inv(env, s) && Enabled(s, Close(c, embed))
    ensures var s', j := Apply(env, s, Close(c, embed)), s.calls[c].job;
            && j in s'.db.jobs && JobRowSound(s', j) && JobRowSound(s, j)
            && s'.db.jobs[j].status == (if Ingestible(env, s, j, embed) then Succeeded else Failed)
            && (Ingestible(env, s, j, embed) ==> EmbeddedBy(env, s', j, embed))
  {
    assert CallSound(s, c);
    var j := s.calls[c].job;
    assert RowsMatchStatus(env, s, j);
    var attempt := AttemptOn(env, s, j, embed);
    if attempt.Some? {
      NoRowsNoConflict(s.db, s.db.jobs[j].version, |attempt.value|);
      InsertedEmbeddings(s.db, s.db.jobs[j], attempt.value);
    }
    if ChunksFor(env, s, j).Some? { PreparedExactly(ChunksFor(env, s, j).value, embed); }
    FinishedStatus(s.db, j, attempt);
    FinishKeepsVersions(s.db, j, attempt, j);
  }

  lemma EmbeddingsStay(env: Environment, s: System, a: Action, j: Uuid, embed: Embedder)
    requires Configured(env) && Inv(env, s) && Enabled(s, a)
    requires j in s.db.jobs && JobRowSound(s, j) && s.db.jobs[j].status == Succeeded && EmbeddedBy(env, s, j, embed)
    ensures var s' := Apply(env, s, a);
            j in s'.db.jobs && JobRowSound(s', j) && EmbeddedBy(env, s', j, embed)
  {
    SuccessIsFinal(env, s, a, j);
    BlobsAreImmutable(env, s, a, s.db.jobs[j].version);
  }

  lemma OnlyClosingSucceeds(env: Environment, s: System, a: Action, j: Uuid)
    requires Configured(env) && Enabled(s, a) && j in Apply(env, s, a).db.jobs
    requires Apply(env, s, a).db.jobs[j].status == Succeeded && (j in s.db.jobs ==> s.db.jobs[j].status != Succeeded)
    ensures a.Close? && s.calls[a.call].job == j
  {
    if a.Close? {
      FinishChangesOneJob(s.db, s.calls[a.call].job,
                          Attempt(env, s.calls[a.call].content, s.db.versions[s.db.jobs[s.calls[a.call].job].version].mediaType, a.embed));
      FinishKeepsJobs(s.db, s.calls[a.call].job,
                      Attempt(env, s.calls[a.call].content, s.db.versions[s.db.jobs[s.calls[a.call].job].version].mediaType, a.embed));
    }
  }

  /** Over every run, a succeeded job was closed by one action of its own call, and each of its
      stored embeddings is the answer that call's embedder gave for that very chunk's text. */
  lemma {:induction false} EmbeddingsAreTheChunks(env: Environment, run: seq<Action>, j: Uuid) returns (k: nat)
    requires Configured(env) && After(env, run).Some? && j in After(env, run).value.db.jobs
    requires After(env, run).value.db.jobs[j].status == Succeeded
    ensures k < |run| && run[k].Close? && After(env, run[..k]).Some?
    ensures var s := After(env, run[..k]).value;
            run[k].call in s.calls && s.calls[run[k].call].job == j
    ensures JobRowSound(After(env, run).value, j) && EmbeddedBy(env, After(env, run).value, j, run[k].embed)
  {
    var n := |run| - 1;
    var front, a := run[..n], run[n];
    var s := After(env, front).value;
    RunsKeep(env, front);
    if j in s.db.jobs && s.db.jobs[j].status == Succeeded {
      k := EmbeddingsAreTheChunks(env, front, j);
      assert front[..k] == run[..k] && front[k] == run[k];
      EmbeddingsStay(env, s, a, j, run[k].embed);
    } else {
      OnlyClosingSucceeds(env, s, a, j);
      ClosesExactly(env, s, a.call, a.embed);
      k := n;
    }
  }

  // ----- idempotency keys -----

  ghost predicate KeysUnique(db: Db) {
    forall j, k ::
      (&& j in db.jobs && k in db.jobs
       && db.jobs[j].organisation == db.jobs[k].organisation && db.jobs[j].workspace == db.jobs[k].workspace
       && db.jobs[j].idempotencyKey == db.jobs[k].idempotencyKey)
      ==> j == k
  }

  /** Submitting the same idempotency key twice in a workspace never makes a second job. */
  lemma {:induction false} OneJobPerKey(env: Environment, run: seq<Action>)
    requires Configured(env) && After(env, run).Some?
    ensures KeysUnique(After(env, run).value.db)
  {
    if run != [] {
      OneJobPerKey(env, run[..|run| - 1]);
      var s := After(env, run[..|run| - 1]).value;
      KeysStayUnique(env, s, run[|run| - 1]);
    }
  }

  lemma KeysStayUnique(env: Environment, s: System, a: Action)
    requires Configured(env) && Enabled(s, a) && KeysUnique(s.db)
    ensures KeysUnique(Apply(env, s, a).db)
  {
    var db' := Apply(env, s, a).db;
    if a.Upload? {
      forall j | j in s.db.jobs
        ensures !(s.db.jobs[j].organisation == a.row.organisation && s.db.jobs[j].workspace == a.row.workspace
                  && s.db.jobs[j].idempotencyKey == a.idempotencyKey) {
        assert !KeyTaken(s.db, a.row.organisation, a.row.workspace, a.idempotencyKey);
      }
    } else {
      forall j | j in db'.jobs
        ensures j in s.db.jobs && db'.jobs[j].(status := Queued) == s.db.jobs[j].(status := Queued) {
      }
    }
  }
}
