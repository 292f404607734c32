/** The knowledge service: one upload or retry is several committed transactions of one
    session, and every commit clears the tenant context that the row policy needs. */
module KnowledgeService {
  import opened Collections
  import opened Ingestion
  import Chunker
  import Words
  import RowPolicy

  datatype Source = Source(organisation: Uuid, workspace: Uuid, isActive: bool)

  datatype UploadError =
    | SourceNotFound | SourceArchived | UnsupportedMediaType | FileTooLarge
    | BlobStorageFailed | IdempotencyConflict | UploadRejected

  datatype RetryError = JobNotFound | NotRetryable | VersionNotFound | BlobUnavailable | RetryRejected

  /** How one run of the ingestion phase ends. */
  datatype RunOutcome = Completed | JobMissing | Raised

  /** A statement on a knowledge table, with the context it ran under. */
  datatype Access = Access(table: RowPolicy.Table, ctx: RowPolicy.Context)

  predicate Visible(ctx: RowPolicy.Context, organisation: Uuid, workspace: Uuid) {
    RowPolicy.Allowed(ctx, RowPolicy.Row(RowPolicy.Jobs, organisation, workspace, 0, ""))
  }

  predicate InTenant(ctx: RowPolicy.Context, organisation: Uuid, workspace: Uuid) {
    ctx.organisation == RowPolicy.Id(organisation) && ctx.workspace == RowPolicy.Id(workspace)
  }

  ghost predicate AllInTenant(statements: seq<Access>, organisation: Uuid, workspace: Uuid) {
    forall i :: 0 <= i < |statements| ==> InTenant(statements[i].ctx, organisation, workspace)
  }

  ghost predicate JobInTenant(db: Db, job: Uuid, organisation: Uuid, workspace: Uuid) {
    job in db.jobs && db.jobs[job].organisation == organisation && db.jobs[job].workspace == workspace
  }

  // ----- what the calls should do, without any row policy -----

  /** The two committed states of one ingestion phase; the second is missing when the
      closing commit violates the unique index. */
  ghost function IngestionCommits(env: Environment, db: Db, job: Uuid, content: Bytes, mediaType: string, embed: Embedder): seq<Db>
    requires Configured(env) && job in db.jobs
  {
    var running := SetStatus(db, job, Running);
    var attempt := Attempt(env, content, mediaType, embed);
    [running] + (if Blocked(running, job, attempt) then [] else [Finish(running, job, attempt)])
  }

  ghost predicate Blocked(db: Db, job: Uuid, attempt: Option<seq<Prepared>>)
    requires job in db.jobs
  {
    attempt.Some? && Conflicts(db, db.jobs[job].version, |attempt.value|)
  }

  datatype UploadRequest = UploadRequest(
    organisation: Uuid, workspace: Uuid, source: Uuid, mediaType: string, content: Bytes, idempotencyKey: string,
    document: Uuid, version: Uuid, job: Uuid)   // the last three are the fresh ids of this call

  function KeyOf(r: UploadRequest): StorageKey {
    StorageKey(r.organisation, r.workspace, r.document, r.version)
  }

  function VersionOf(r: UploadRequest): Version {
    Version(r.organisation, r.workspace, KeyOf(r), r.mediaType)
  }

  /** The first reason, if any, to refuse the request before anything is stored. */
  function InputError(r: UploadRequest, sources: map<Uuid, Source>, isSupported: string -> bool, maxUploadBytes: nat): Option<UploadError> {
    if r.source !in sources || sources[r.source].organisation != r.organisation || sources[r.source].workspace != r.workspace
    then Some(SourceNotFound)
    else if !sources[r.source].isActive then Some(SourceArchived)
    else if !isSupported(r.mediaType) then Some(UnsupportedMediaType)
    else if |r.content| > maxUploadBytes then Some(FileTooLarge)
    else None
  }

  function Refusal(r: UploadRequest, db: Db, sources: map<Uuid, Source>, isSupported: string -> bool, maxUploadBytes: nat,
                   diskFails: bool): Option<UploadError> {
    var error := InputError(r, sources, isSupported, maxUploadBytes);
    if error.Some? then error
    else if diskFails then Some(BlobStorageFailed)
    else if KeyTaken(db, r.organisation, r.workspace, r.idempotencyKey) then Some(IdempotencyConflict)
    else None
  }

  /** Every committed state of an accepted upload, in order. */
  ghost function UploadCommits(env: Environment, db: Db, r: UploadRequest, embed: Embedder): seq<Db>
    requires Configured(env)
  {
    var queued := QueueUpload(db, r.version, r.job, VersionOf(r), r.idempotencyKey);
    [queued] + IngestionCommits(env, queued, r.job, r.content, r.mediaType, embed)
  }

  ghost function RetryRefusal(job: Uuid, db: Db, organisation: Uuid, workspace: Uuid): Option<RetryError> {
    if !JobInTenant(db, job, organisation, workspace) then Some(JobNotFound)
    else if db.jobs[job].status != Failed then Some(NotRetryable)
    else
      var v := db.jobs[job].version;
      if v !in db.versions || db.versions[v].organisation != organisation || db.versions[v].workspace != workspace
      then Some(VersionNotFound)
      else None
  }

  /** The committed states of a retry after its reset: cleanup, running, closed. */
  ghost function RerunCommits(env: Environment, db: Db, job: Uuid, content: Bytes, mediaType: string, embed: Embedder): seq<Db>
    requires Configured(env) && job in db.jobs
  {
    var cleaned := Cleaned(db, job);
    [cleaned] + IngestionCommits(env, cleaned, job, content, mediaType, embed)
  }

  function Cleaned(db: Db, job: Uuid): Db
    requires job in db.jobs
  {
    DeleteChunks(db, db.jobs[job].version, db.jobs[job].organisation, db.jobs[job].workspace)
  }

  /** Every committed state of an accepted retry whose blob was read, in order. */
  ghost function RetryCommits(env: Environment, db: Db, job: Uuid, content: Bytes, embed: Embedder): seq<Db>
    requires Configured(env) && job in db.jobs && db.jobs[job].version in db.versions
  {
    [SetStatus(db, job, Queued)]
    + RerunCommits(env, SetStatus(db, job, Queued), job, content, db.versions[db.jobs[job].version].mediaType, embed)
  }

  /** The version's chunk rows, whatever left them, are its job's tenant's. */
  ghost predicate RowsInTenant(db: Db, job: Uuid)
    requires job in db.jobs
  {
    forall k :: k in db.chunks && k.0 == db.jobs[job].version ==>
      db.chunks[k].organisation == db.jobs[job].organisation && db.chunks[k].workspace == db.jobs[job].workspace
  }

  /** After the cleanup no chunk index can conflict with rows an earlier attempt left. */
  lemma CleanupExcludesConflicts(db: Db, job: Uuid, n: nat)
    requires job in db.jobs && RowsInTenant(db, job)
    ensures !Conflicts(Cleaned(db, job), db.jobs[job].version, n)
  {
    var row := db.jobs[job];
    forall i: nat ensures (row.version, i) !in Cleaned(db, job).chunks {
      assert (row.version, i) in db.chunks ==> (row.version, i) in StaleKeys(db, row.version, row.organisation, row.workspace);
    }
  }

  lemma CleanedRunCompletes(env: Environment, db: Db, job: Uuid, content: Bytes, mediaType: string, embed: Embedder)
    requires Configured(env) && job in db.jobs && RowsInTenant(db, job)
    ensures |IngestionCommits(env, Cleaned(db, job), job, content, mediaType, embed)| == 2
  {
    var attempt := Attempt(env, content, mediaType, embed);
    if attempt.Some? { CleanupExcludesConflicts(db, job, |attempt.value|); }
  }

  lemma NewVersionRunCompletes(env: Environment, db: Db, r: UploadRequest, embed: Embedder)
    requires Configured(env) && r.version !in db.versions && forall k :: k in db.chunks ==> k.0 in db.versions
    ensures |IngestionCommits(env, QueueUpload(db, r.version, r.job, VersionOf(r), r.idempotencyKey), r.job, r.content, r.mediaType, embed)| == 2
  {
    forall i: nat ensures (r.version, i) !in db.chunks { assert (r.version, i).0 == r.version; }
  }

  // ----- the session and the service -----

  class KnowledgeSession {
    const env: Environment
    const maxUploadBytes: nat
    const isSupported: string -> bool
    const sources: map<Uuid, Source>
    var ctx: RowPolicy.Context
    var committed: Db
    var working: Db
    var blobs: Blobs
    ghost var statements: seq<Access>
    ghost var commits: seq<Db>

    constructor (env: Environment, maxUploadBytes: nat, isSupported: string -> bool, sources: map<Uuid, Source>,
                 db: Db, blobs: Blobs, organisation: Uuid, workspace: Uuid, user: RowPolicy.Setting)
      ensures this.env == env && this.maxUploadBytes == maxUploadBytes && this.isSupported == isSupported
      ensures this.sources == sources && this.blobs == blobs
      ensures committed == working == db && statements == [] && commits == []
      ensures InTenant(ctx, organisation, workspace)
    {
      this.env, this.maxUploadBytes, this.isSupported := env, maxUploadBytes, isSupported;
      this.sources, this.blobs := sources, blobs;
      committed, working := db, db;
      ctx := RowPolicy.Context(RowPolicy.Id(organisation), user, RowPolicy.Id(workspace));
      statements, commits := [], [];
    }

    method SetKnowledgeRlsContext(organisation: Uuid, workspace: Uuid)
      modifies this`ctx
      ensures ctx == old(ctx).(organisation := RowPolicy.Id(organisation), workspace := RowPolicy.Id(workspace))
    {
      ctx := ctx.(organisation := RowPolicy.Id(organisation));
      ctx := ctx.(workspace := RowPolicy.Id(workspace));
    }

    method Commit()
      modifies this`committed, this`ctx, this`commits
      ensures committed == working && ctx == RowPolicy.CLEARED && commits == old(commits) + [working]
    {
      committed, ctx := working, RowPolicy.CLEARED;
      commits := commits + [working];
    }

    method Rollback()
      modifies this`working, this`ctx
      ensures working == committed && ctx == RowPolicy.CLEARED
    {
      working, ctx := committed, RowPolicy.CLEARED;
    }

    // --- statements; each sees and may write only what the policy allows ---

    method SelectSource(source: Uuid, organisation: Uuid, workspace: Uuid) returns (row: Option<Source>)
      modifies this`statements
      ensures statements == old(statements) + [Access(RowPolicy.Sources, ctx)]
      ensures row == if source in sources && sources[source].organisation == organisation
                        && sources[source].workspace == workspace && Visible(ctx, organisation, workspace)
                     then Some(sources[source]) else None
    {
      statements := statements + [Access(RowPolicy.Sources, ctx)];
      row := if source in sources && sources[source].organisation == organisation && sources[source].workspace == workspace
                && Visible(ctx, organisation, workspace)
             then Some(sources[source]) else None;
    }

    method SelectJob(job: Uuid, organisation: Uuid) returns (row: Option<Job>)
      modifies this`statements
      ensures statements == old(statements) + [Access(RowPolicy.Jobs, ctx)]
      ensures row == if job in working.jobs && working.jobs[job].organisation == organisation
                        && Visible(ctx, organisation, working.jobs[job].workspace)
                     then Some(working.jobs[job]) else None
    {
      statements := statements + [Access(RowPolicy.Jobs, ctx)];
      row := if job in working.jobs && working.jobs[job].organisation == organisation
                && Visible(ctx, organisation, working.jobs[job].workspace)
             then Some(working.jobs[job]) else None;
    }

    method SelectVersion(version: Uuid, organisation: Uuid) returns (row: Option<Version>)
      modifies this`statements
      ensures statements == old(statements) + [Access(RowPolicy.Versions, ctx)]
      ensures row == if version in working.versions && working.versions[version].organisation == organisation
                        && Visible(ctx, organisation, working.versions[version].workspace)
                     then Some(working.versions[version]) else None
    {
      statements := statements + [Access(RowPolicy.Versions, ctx)];
      row := if version in working.versions && working.versions[version].organisation == organisation
                && Visible(ctx, organisation, working.versions[version].workspace)
             then Some(working.versions[version]) else None;
    }

    /** An update that the policy hides from its own row touches nothing, which raises. */
    method UpdateJobStatus(job: Uuid, status: JobStatus) returns (ok: bool)
      requires job in working.jobs
      modifies this`statements, this`working
      ensures statements == old(statements) + [Access(RowPolicy.Jobs, ctx)]
      ensures ok == Visible(ctx, old(working).jobs[job].organisation, old(working).jobs[job].workspace)
      ensures working == if ok then SetStatus(old(working), job, status) else old(working)
    {
      statements := statements + [Access(RowPolicy.Jobs, ctx)];
      ok := Visible(ctx, working.jobs[job].organisation, working.jobs[job].workspace);
      if ok { working := SetStatus(working, job, status); }
    }

    /** Document, version count, version and job: the policy checks every new row, and the
        job's idempotency key must be new in its workspace. */
    method InsertUpload(r: UploadRequest) returns (error: Option<UploadError>)
      modifies this`statements, this`working
      ensures statements == old(statements) + [Access(RowPolicy.Documents, ctx), Access(RowPolicy.Versions, ctx),
                                               Access(RowPolicy.Versions, ctx), Access(RowPolicy.Jobs, ctx)]
      ensures error == if !Visible(ctx, r.organisation, r.workspace) then Some(UploadRejected)
                       else if KeyTaken(old(working), r.organisation, r.workspace, r.idempotencyKey) then Some(IdempotencyConflict)
                       else None
      ensures working == if error.None? then QueueUpload(old(working), r.version, r.job, VersionOf(r), r.idempotencyKey)
                         else old(working)
    {
      statements := statements + [Access(RowPolicy.Documents, ctx), Access(RowPolicy.Versions, ctx),
                                  Access(RowPolicy.Versions, ctx), Access(RowPolicy.Jobs, ctx)];
      if !Visible(ctx, r.organisation, r.workspace) { return Some(UploadRejected); }
      if KeyTaken(working, r.organisation, r.workspace, r.idempotencyKey) { return Some(IdempotencyConflict); }
      working := QueueUpload(working, r.version, r.job, VersionOf(r), r.idempotencyKey);
      error := None;
    }

    method DeleteStaleChunks(version: Uuid, organisation: Uuid, workspace: Uuid)
      modifies this`statements, this`working
      ensures statements == old(statements) + [Access(RowPolicy.Chunks, ctx)]
      ensures working == if Visible(ctx, organisation, workspace)
                         then DeleteChunks(old(working), version, organisation, workspace) else old(working)
    {
      statements := statements + [Access(RowPolicy.Chunks, ctx)];
      if Visible(ctx, organisation, workspace) {
        working := DeleteChunks(working, version, organisation, workspace);
      }
    }

    /** The flush of one attempt's rows. */
    method InsertChunkRows(job: Job, rows: seq<Prepared>) returns (ok: bool)
      modifies this`statements, this`working
      ensures statements == old(statements) + [Access(RowPolicy.Chunks, ctx), Access(RowPolicy.Embeddings, ctx)]
      ensures ok == (Visible(ctx, job.organisation, job.workspace) && !Conflicts(old(working), job.version, |rows|))
      ensures working == if ok then InsertPrepared(old(working), job, rows) else old(working)
    {
      statements := statements + [Access(RowPolicy.Chunks, ctx), Access(RowPolicy.Embeddings, ctx)];
      ok := Visible(ctx, job.organisation, job.workspace)
            && !exists i :: 0 <= i < |rows| && (job.version, i) in working.chunks;
      if ok { working := InsertPrepared(working, job, rows); }
    }

    // --- the ingestion phase ---

    /** Set the context, find the job, mark it running, commit. */
    method BeginIngestion(job: Uuid, organisation: Uuid, workspace: Uuid) returns (outcome: RunOutcome)
      requires working == committed && AllInTenant(statements, organisation, workspace)
      modifies this`statements, this`working, this`committed, this`ctx, this`commits
      ensures AllInTenant(statements, organisation, workspace)
      ensures outcome == if JobInTenant(old(committed), job, organisation, workspace) then Completed else JobMissing
      ensures committed == if outcome.Completed? then SetStatus(old(committed), job, Running) else old(committed)
      ensures commits == if outcome.Completed? then old(commits) + [committed] else old(commits)
      ensures working == committed && (outcome.Completed? ==> InTenant(ctx, organisation, workspace))
    {
      SetKnowledgeRlsContext(organisation, workspace);
      var row := SelectJob(job, organisation);
      if row.None? {
        return JobMissing;
      }
      var ok := UpdateJobStatus(job, Running);
      Commit();
      SetKnowledgeRlsContext(organisation, workspace);
      return if ok then Completed else Raised;
    }

    method PrepareRows(chunks: seq<Chunker.Chunk>, embed: Embedder) returns (rows: Option<seq<Prepared>>)
      ensures rows == Prepare(chunks, embed)
      ensures PreparationIs(chunks, embed, rows)
    {
      PreparedExactly(chunks, embed);
      var prepared: seq<Prepared> := [];
      for i := 0 to |chunks|
        invariant Prepare(chunks[..i], embed) == Some(prepared)
      {
        assert chunks[..i + 1][..i] == chunks[..i];
        var embedding := embed(i, chunks[i].chunkText);
        if embedding.None? || |embedding.value.vector| != embedding.value.dimensions {
          PreparationFails(chunks, embed, i + 1);
          return None;
        }
        prepared := prepared + [Prepared(chunks[i], embedding.value)];
      }
      assert chunks[..|chunks|] == chunks;
      return Some(prepared);
    }

    /** Parse, chunk and embed: any failure makes the attempt fail as a whole. */
    method RunPipeline(content: Bytes, mediaType: string, embed: Embedder) returns (rows: Option<seq<Prepared>>)
      requires Configured(env)
      ensures rows == Attempt(env, content, mediaType, embed)
      ensures rows.Some? <==>
                && env.parse(content, mediaType).Some?
                && EmbedsAll(Chunker.ChunksOf(env.parse(content, mediaType).value, env.config, env.sha256), embed)
    {
      var text := env.parse(content, mediaType);
      if text.None? {
        return None;
      }
      var chunks := Chunker.ChunkText(text.value, env.config, env.sha256);
      Chunker.ChunkingIsUnique(chunks, text.value, Words.Split(text.value), env.config, env.sha256);
      rows := PrepareRows(chunks, embed);
    }

    /** Write the attempt's rows and final status, and commit them together. */
    method CloseIngestion(job: Uuid, attempt: Option<seq<Prepared>>, ghost organisation: Uuid, ghost workspace: Uuid)
      returns (outcome: RunOutcome)
      requires working == committed && AllInTenant(statements, organisation, workspace)
      requires JobInTenant(committed, job, organisation, workspace) && InTenant(ctx, organisation, workspace)
      modifies this`statements, this`working, this`committed, this`ctx, this`commits
      ensures AllInTenant(statements, organisation, workspace)
      ensures outcome == if Blocked(old(committed), job, attempt) then Raised else Completed
      ensures outcome.Raised? <==>
                attempt.Some? && exists i :: 0 <= i < |attempt.value| && (old(committed).jobs[job].version, i) in old(committed).chunks
      ensures outcome.Raised? ==> committed == old(committed)
      ensures committed == Finish(old(committed), job, attempt)
      ensures commits == if outcome.Completed? then old(commits) + [committed] else old(commits)
      ensures working == committed
    {
      var ok := true;
      if attempt.Some? {
        ok := InsertChunkRows(working.jobs[job], attempt.value);
      }
      if ok {
        ok := UpdateJobStatus(job, if attempt.Some? then Succeeded else Failed);
      }
      if !ok {
        Rollback();
        return Raised;
      }
      Commit();
      return Completed;
    }

    method RunIngestion(job: Uuid, organisation: Uuid, workspace: Uuid, content: Bytes, mediaType: string, embed: Embedder)
      returns (outcome: RunOutcome)
      requires Configured(env) && working == committed && AllInTenant(statements, organisation, workspace)
      modifies this`statements, this`working, this`committed, this`ctx, this`commits
      ensures AllInTenant(statements, organisation, workspace) && working == committed
      ensures outcome.JobMissing? <==> !JobInTenant(old(committed), job, organisation, workspace)
      ensures outcome.JobMissing? ==> committed == old(committed) && commits == old(commits)
      ensures !outcome.JobMissing? ==>
                && var states := IngestionCommits(env, old(committed), job, content, mediaType, embed);
                && commits == old(commits) + states && committed == states[|states| - 1]
                && (outcome.Completed? <==> |states| == 2)
    {
      outcome := BeginIngestion(job, organisation, workspace);
      if outcome.Completed? {
        var attempt := RunPipeline(content, mediaType, embed);
        outcome := CloseIngestion(job, attempt, organisation, workspace);
      }
    }

    // --- the two calls ---

    /** The checks before anything is written. */
    method CheckUpload(r: UploadRequest) returns (error: Option<UploadError>)
      requires AllInTenant(statements, r.organisation, r.workspace) && InTenant(ctx, r.organisation, r.workspace)
      modifies this`statements
      ensures AllInTenant(statements, r.organisation, r.workspace)
      ensures error == InputError(r, sources, isSupported, maxUploadBytes)
      ensures InputErrorIs(error, r)
    {
      var row := SelectSource(r.source, r.organisation, r.workspace);
      if row.None? { return Some(SourceNotFound); }
      if !row.value.isActive { return Some(SourceArchived); }
      if !isSupported(r.mediaType) { return Some(UnsupportedMediaType); }
      if |r.content| > maxUploadBytes { return Some(FileTooLarge); }
      return None;
    }

    /** Which request is refused before anything is stored, and why: the source must be one of
        this organisation and workspace, and active; the media type supported; the content
        within the limit. */
    ghost predicate InputErrorIs(error: Option<UploadError>, r: UploadRequest) {
      var own := r.source in sources && sources[r.source].organisation == r.organisation && sources[r.source].workspace == r.workspace;
      var active := own && sources[r.source].isActive;
      && (error == Some(SourceNotFound) <==> !own)
      && (error == Some(SourceArchived) <==> own && !active)
      && (error == Some(UnsupportedMediaType) <==> active && !isSupported(r.mediaType))
      && (error == Some(FileTooLarge) <==> active && isSupported(r.mediaType) && |r.content| > maxUploadBytes)
      && (error.None? <==> active && isSupported(r.mediaType) && |r.content| <= maxUploadBytes)
    }

    /** The request passes all the checks on its input. */
    ghost predicate Admissible(r: UploadRequest) {
      && r.source in sources && sources[r.source] == Source(r.organisation, r.workspace, true)
      && isSupported(r.mediaType) && |r.content| <= maxUploadBytes
    }

    /** A job of the same workspace has the same idempotency key. */
    ghost predicate Duplicate(db: Db, r: UploadRequest) {
      exists j :: j in db.jobs && db.jobs[j].idempotencyKey == r.idempotencyKey
                  && db.jobs[j].organisation == r.organisation && db.jobs[j].workspace == r.workspace
    }

    /** Everything up to the first commit: the document, version and queued job exist. */
    method QueueDocument(r: UploadRequest, diskFails: bool) returns (error: Option<UploadError>)
      requires working == committed
      requires AllInTenant(statements, r.organisation, r.workspace) && InTenant(ctx, r.organisation, r.workspace)
      modifies this`statements, this`working, this`committed, this`ctx, this`commits, this`blobs
      ensures AllInTenant(statements, r.organisation, r.workspace) && working == committed
      ensures error == Refusal(r, old(committed), sources, isSupported, maxUploadBytes, diskFails)
      ensures !Admissible(r) ==> error.Some? && InputErrorIs(error, r)
      ensures error == Some(BlobStorageFailed) <==> Admissible(r) && diskFails
      ensures error == Some(IdempotencyConflict) <==> Admissible(r) && !diskFails && Duplicate(old(committed), r)
      ensures error.None? <==> Admissible(r) && !diskFails && !Duplicate(old(committed), r)
      ensures error.None? ==>
                && r.job in committed.jobs && r.version in committed.versions
                && committed.jobs[r.job] == Job(r.version, r.organisation, r.workspace, Queued, r.idempotencyKey)
                && committed.versions[r.version]
                   == Version(r.organisation, r.workspace, StorageKey(r.organisation, r.workspace, r.document, r.version), r.mediaType)
                && committed == QueueUpload(old(committed), r.version, r.job, VersionOf(r), r.idempotencyKey)
                && commits == old(commits) + [committed]
      ensures error.Some? ==> committed == old(committed) && commits == old(commits)
      ensures blobs == if error.None? || error.value.IdempotencyConflict? then old(blobs)[KeyOf(r) := r.content] else old(blobs)
    {
      error := CheckUpload(r);
      if error.Some? { return; }
      if diskFails { return Some(BlobStorageFailed); }
      blobs := blobs[KeyOf(r) := r.content];
      error := InsertUpload(r);
      if error.Some? {
        Rollback();
        return;
      }
      Commit();
    }

    /** An upload is refused before anything is committed, or it commits the queued job, the
        running job and the closed job, each statement under the call's own tenant. */
    method UploadDocument(r: UploadRequest, diskFails: bool, embed: Embedder) returns (result: Result<Uuid, UploadError>)
      requires Configured(env) && working == committed
      requires AllInTenant(statements, r.organisation, r.workspace) && InTenant(ctx, r.organisation, r.workspace)
      requires r.version !in committed.versions && r.job !in committed.jobs && KeyOf(r) !in blobs   // fresh ids
      requires forall k :: k in committed.chunks ==> k.0 in committed.versions                       // foreign key
      modifies this`statements, this`working, this`committed, this`ctx, this`commits, this`blobs
      ensures AllInTenant(statements, r.organisation, r.workspace)
      ensures result.Ok? <==> Admissible(r) && !diskFails && !Duplicate(old(committed), r)
      ensures !Admissible(r) ==> result.Err? && InputErrorIs(Some(result.error), r)
      ensures Admissible(r) && diskFails ==> result == Err(BlobStorageFailed)
      ensures Admissible(r) && !diskFails && Duplicate(old(committed), r) ==> result == Err(IdempotencyConflict)
      ensures var refusal := Refusal(r, old(committed), sources, isSupported, maxUploadBytes, diskFails);
              if refusal.Some? then
                && result == Err(refusal.value) && committed == old(committed) && commits == old(commits)
                && blobs == if refusal.value.IdempotencyConflict? then old(blobs)[KeyOf(r) := r.content] else old(blobs)
              else
                && result == Ok(r.job)
                && commits == old(commits) + UploadCommits(env, old(committed), r, embed)
                && committed == commits[|commits| - 1]
                && blobs == old(blobs)[KeyOf(r) := r.content]
                && InTenant(ctx, r.organisation, r.workspace)
    {
      var error := QueueDocument(r, diskFails);
      if error.Some? {
        return Err(error.value);
      }
      NewVersionRunCompletes(env, old(committed), r, embed);
      var outcome := IngestAndRefresh(r.job, r.organisation, r.workspace, r.content, r.mediaType, embed);
      return Ok(r.job);
    }

    /** The ingestion phase, after which the context is set again and the job re-read. */
    method IngestAndRefresh(job: Uuid, organisation: Uuid, workspace: Uuid, content: Bytes, mediaType: string, embed: Embedder)
      returns (outcome: RunOutcome)
      requires Configured(env) && working == committed && AllInTenant(statements, organisation, workspace)
      requires JobInTenant(committed, job, organisation, workspace)
      modifies this`statements, this`working, this`committed, this`ctx, this`commits
      ensures AllInTenant(statements, organisation, workspace) && working == committed
      ensures var states := IngestionCommits(env, old(committed), job, content, mediaType, embed);
              && commits == old(commits) + states && committed == states[|states| - 1]
              && outcome == (if |states| == 2 then Completed else Raised)
      ensures outcome.Completed? ==> InTenant(ctx, organisation, workspace)
    {
      outcome := RunIngestion(job, organisation, workspace, content, mediaType, embed);
      if outcome.Completed? {
        SetKnowledgeRlsContext(organisation, workspace);
        var refreshed := SelectJob(job, organisation);
      }
    }

    /** The job's version is in the tenant. */
    ghost predicate VersionInTenant(db: Db, job: Uuid, organisation: Uuid, workspace: Uuid)
      requires job in db.jobs
    {
      var v := db.jobs[job].version;
      v in db.versions && db.versions[v].organisation == organisation && db.versions[v].workspace == workspace
    }

    /** Reset a failed job to queued, and commit. */
    method RequeueFailed(job: Uuid, organisation: Uuid, workspace: Uuid) returns (result: Result<Version, RetryError>)
      requires working == committed
      requires AllInTenant(statements, organisation, workspace) && InTenant(ctx, organisation, workspace)
      modifies this`statements, this`working, this`committed, this`ctx, this`commits
      ensures AllInTenant(statements, organisation, workspace) && working == committed
      ensures var db, mine := old(committed), JobInTenant(old(committed), job, organisation, workspace);
              && (result == Err(JobNotFound) <==> !mine)
              && (result == Err(NotRetryable) <==> mine && db.jobs[job].status != Failed)
              && (result == Err(VersionNotFound) <==>
                    mine && db.jobs[job].status == Failed && !VersionInTenant(db, job, organisation, workspace))
              && (result.Ok? <==> mine && db.jobs[job].status == Failed && VersionInTenant(db, job, organisation, workspace))
      ensures var refusal := RetryRefusal(job, old(committed), organisation, workspace);
              if refusal.Some? then
                result == Err(refusal.value) && committed == old(committed) && commits == old(commits)
              else
                && result == Ok(old(committed).versions[old(committed).jobs[job].version])
                && committed == SetStatus(old(committed), job, Queued)
                && commits == old(commits) + [committed]
    {
      var row := SelectJob(job, organisation);
      if row.None? || row.value.workspace != workspace { return Err(JobNotFound); }
      if row.value.status != Failed { return Err(NotRetryable); }
      var version := SelectVersion(row.value.version, organisation);
      if version.None? { return Err(VersionNotFound); }
      var ok := UpdateJobStatus(job, Queued);
      Commit();
      return Ok(version.value);
    }

    /** Remove what an earlier attempt left, and commit. */
    method RemoveStaleRows(version: Uuid, organisation: Uuid, workspace: Uuid)
      requires working == committed && AllInTenant(statements, organisation, workspace)
      modifies this`statements, this`working, this`committed, this`ctx, this`commits
      ensures AllInTenant(statements, organisation, workspace) && working == committed
      ensures committed == DeleteChunks(old(committed), version, organisation, workspace)
      ensures forall k :: k in committed.chunks <==>
                k in old(committed).chunks && !(k.0 == version && old(committed).chunks[k].organisation == organisation
                                                && old(committed).chunks[k].workspace == workspace)
      ensures commits == old(commits) + [committed]
    {
      SetKnowledgeRlsContext(organisation, workspace);
      DeleteStaleChunks(version, organisation, workspace);
      Commit();
    }

    /** Cleanup, ingestion and re-reading the job, after the reset. */
    method Rerun(job: Uuid, organisation: Uuid, workspace: Uuid, content: Bytes, mediaType: string, embed: Embedder)
      returns (outcome: RunOutcome)
      requires Configured(env) && working == committed && AllInTenant(statements, organisation, workspace)
      requires JobInTenant(committed, job, organisation, workspace)
      modifies this`statements, this`working, this`committed, this`ctx, this`commits
      ensures AllInTenant(statements, organisation, workspace)
      ensures commits == old(commits) + RerunCommits(env, old(committed), job, content, mediaType, embed)
      ensures committed == commits[|commits| - 1]
      ensures outcome.Completed? || outcome.Raised?
      ensures RowsInTenant(old(committed), job) ==> outcome.Completed?
      ensures outcome.Completed? ==> InTenant(ctx, organisation, workspace)
    {
      RemoveStaleRows(committed.jobs[job].version, organisation, workspace);
      outcome := IngestAndRefresh(job, organisation, workspace, content, mediaType, embed);
      if RowsInTenant(old(committed), job) { CleanedRunCompletes(env, old(committed), job, content, mediaType, embed); }
    }

    /** A retry is refused, or stops after its first commit because the blob cannot be read,
        or commits the queued job, the cleanup, the running job and the closed job, each
        statement under the call's own tenant; no rows that an earlier attempt left in the
        tenant can make it fail. */
    method RetryJob(job: Uuid, organisation: Uuid, workspace: Uuid, diskFails: bool, embed: Embedder)
      returns (result: Result<Uuid, RetryError>)
      requires Configured(env) && working == committed
      requires AllInTenant(statements, organisation, workspace) && InTenant(ctx, organisation, workspace)
      modifies this`statements, this`working, this`committed, this`ctx, this`commits
      ensures AllInTenant(statements, organisation, workspace)
      ensures var db, mine := old(committed), JobInTenant(old(committed), job, organisation, workspace);
              && (result == Err(JobNotFound) <==> !mine)
              && (result == Err(NotRetryable) <==> mine && db.jobs[job].status != Failed)
              && (result == Err(VersionNotFound) <==>
                    mine && db.jobs[job].status == Failed && !VersionInTenant(db, job, organisation, workspace))
      ensures var refusal := RetryRefusal(job, old(committed), organisation, workspace);
              refusal.Some? ==> result == Err(refusal.value) && committed == old(committed) && commits == old(commits)
      ensures RetryRefusal(job, old(committed), organisation, workspace).None? ==>
                var key := old(committed).versions[old(committed).jobs[job].version].storageKey;
                if diskFails || key !in blobs then
                  && result == Err(BlobUnavailable)
                  && committed == SetStatus(old(committed), job, Queued) && commits == old(commits) + [committed]
                else
                  && commits == old(commits) + RetryCommits(env, old(committed), job, blobs[key], embed)
                  && committed == commits[|commits| - 1]
                  && (result == Ok(job) || result == Err(RetryRejected))
                  && (RowsInTenant(old(committed), job) ==> result == Ok(job))
                  && (result.Ok? ==> InTenant(ctx, organisation, workspace))
    {
      var version := RequeueFailed(job, organisation, workspace);
      if version.Err? {
        return Err(version.error);
      }
      if diskFails || version.value.storageKey !in blobs {
        return Err(BlobUnavailable);
      }
      var outcome := Rerun(job, organisation, workspace, blobs[version.value.storageKey], version.value.mediaType, embed);
      return if outcome.Raised? then Err(RetryRejected) else Ok(job);
    }
  }

  lemma {:induction false} PreparationFails(chunks: seq<Chunker.Chunk>, embed: Embedder, n: nat)
    requires n <= |chunks| && Prepare(chunks[..n], embed).None?
    ensures Prepare(chunks, embed).None?
    decreases |chunks|
  {
    if n < |chunks| {
      assert chunks[..|chunks| - 1][..n] == chunks[..n];
      PreparationFails(chunks[..|chunks| - 1], embed, n);
    } else {
      assert chunks[..n] == chunks;
    }
  }

  // ----- the calls are runs of the transition system -----

  ghost function UploadAction(c: nat, r: UploadRequest): Action {
    Upload(c, r.version, r.job, VersionOf(r), r.idempotencyKey, r.content)
  }

  /** The system states of an undisturbed sequence of actions. */
  ghost function States(env: Environment, s: System, actions: seq<Action>): Option<seq<Db>>
    requires Configured(env)
    decreases |actions|
  {
    if actions == [] then Some([])
    else if !Enabled(s, actions[0]) then None
    else
      var s' := Apply(env, s, actions[0]);
      match States(env, s', actions[1..])
      case None => None
      case Some(rest) => Some([s'.db] + rest)
  }

  lemma OneMoreState(env: Environment, s: System, a: Action, rest: seq<Action>, dbs: seq<Db>)
    requires Configured(env) && Enabled(s, a) && States(env, Apply(env, s, a), rest) == Some(dbs)
    ensures States(env, s, [a] + rest) == Some([Apply(env, s, a).db] + dbs)
  {
    assert ([a] + rest)[1..] == rest;
  }

  lemma ClosingNeverBlocks(env: Environment, s: System, c: nat, embed: Embedder)
    requires Configured(env) && Inv(env, s) && Enabled(s, Close(c, embed))
    ensures var j := s.calls[c].job;
            !Blocked(s.db, j, Attempt(env, s.calls[c].content, s.db.versions[s.db.jobs[j].version].mediaType, embed))
  {
    var j := s.calls[c].job;
    assert CallSound(s, c) && JobRowSound(s, j) && RowsMatchStatus(env, s, j);
    var attempt := Attempt(env, s.calls[c].content, s.db.versions[s.db.jobs[j].version].mediaType, embed);
    if attempt.Some? { NoRowsNoConflict(s.db, s.db.jobs[j].version, |attempt.value|); }
  }

  lemma StartedCall(env: Environment, s: System, c: nat, embed: Embedder)
    requires Configured(env) && Enabled(s, Start(c)) && JobRowSound(s, s.calls[c].job)
    ensures var s', j := Apply(env, s, Start(c)), s.calls[c].job;
            && Enabled(s', Close(c, embed)) && s'.calls[c] == Ingesting(j, s.calls[c].content)
            && s'.db == SetStatus(s.db, j, Running)
  {
  }

  /** The attempt that the call's ingestion phase makes. */
  ghost function AttemptOf(env: Environment, s: System, c: nat, embed: Embedder): Option<seq<Prepared>>
    requires Configured(env) && c in s.calls && !s.calls[c].RetryQueued? && s.calls[c].job in s.db.jobs
    requires s.db.jobs[s.calls[c].job].version in s.db.versions
  {
    Attempt(env, s.calls[c].content, s.db.versions[s.db.jobs[s.calls[c].job].version].mediaType, embed)
  }

  lemma StartedNeverBlocks(env: Environment, s: System, c: nat, embed: Embedder)
    requires Configured(env) && Inv(env, s) && Enabled(s, Start(c)) && JobRowSound(s, s.calls[c].job)
    ensures !Blocked(SetStatus(s.db, s.calls[c].job, Running), s.calls[c].job, AttemptOf(env, s, c, embed))
  {
    StartKeeps(env, s, c);
    StartedCall(env, s, c, embed);
    ClosingNeverBlocks(env, Apply(env, s, Start(c)), c, embed);
  }

  lemma FinishedCall(env: Environment, s: System, c: nat, embed: Embedder)
    requires Configured(env) && Enabled(s, Close(c, embed))
    ensures Apply(env, s, Close(c, embed)).db == Finish(s.db, s.calls[c].job, AttemptOf(env, s, c, embed))
  {
  }

  lemma TwoActions(env: Environment, s: System, c: nat, embed: Embedder)
    requires Configured(env) && Enabled(s, Start(c)) && JobRowSound(s, s.calls[c].job)
    ensures var j := s.calls[c].job;
            var running := SetStatus(s.db, j, Running);
            States(env, s, [Start(c), Close(c, embed)]) == Some([running, Finish(running, j, AttemptOf(env, s, c, embed))])
  {
    var s' := Apply(env, s, Start(c));
    StartedCall(env, s, c, embed);
    assert [Close(c, embed)] + [] == [Close(c, embed)];
    OneMoreState(env, s', Close(c, embed), [], []);
    assert [Apply(env, s', Close(c, embed)).db] + [] == [Apply(env, s', Close(c, embed)).db];
    assert [Start(c)] + [Close(c, embed)] == [Start(c), Close(c, embed)];
    OneMoreState(env, s, Start(c), [Close(c, embed)], [Apply(env, s', Close(c, embed)).db]);
    FinishedCall(env, s', c, embed);
    assert [s'.db] + [Apply(env, s', Close(c, embed)).db] == [s'.db, Apply(env, s', Close(c, embed)).db];
  }

  lemma UnblockedCommits(env: Environment, db: Db, j: Uuid, content: Bytes, mediaType: string, embed: Embedder)
    requires Configured(env) && j in db.jobs
    requires !Blocked(SetStatus(db, j, Running), j, Attempt(env, content, mediaType, embed))
    ensures IngestionCommits(env, db, j, content, mediaType, embed)
            == [SetStatus(db, j, Running), Finish(SetStatus(db, j, Running), j, Attempt(env, content, mediaType, embed))]
  {
  }

  lemma PhaseIsTwoActions(env: Environment, s: System, c: nat, embed: Embedder)
    requires Configured(env) && Inv(env, s) && Enabled(s, Start(c)) && JobRowSound(s, s.calls[c].job)
    ensures var j, content := s.calls[c].job, s.calls[c].content;
            States(env, s, [Start(c), Close(c, embed)])
            == Some(IngestionCommits(env, s.db, j, content, s.db.versions[s.db.jobs[j].version].mediaType, embed))
  {
    var j := s.calls[c].job;
    StartedNeverBlocks(env, s, c, embed);
    TwoActions(env, s, c, embed);
    UnblockedCommits(env, s.db, j, s.calls[c].content, s.db.versions[s.db.jobs[j].version].mediaType, embed);
  }

  /** What an upload commits is what the system's upload, start and close actions commit, so
      every claim over runs of the system is a claim about the service's method. */
  lemma UploadIsARun(env: Environment, s: System, c: nat, r: UploadRequest, embed: Embedder)
    requires Configured(env) && Inv(env, s) && c !in s.calls
    requires r.version !in s.db.versions && r.job !in s.db.jobs && KeyOf(r) !in s.blobs
    requires !KeyTaken(s.db, r.organisation, r.workspace, r.idempotencyKey)
    ensures Enabled(s, UploadAction(c, r))
    ensures States(env, s, [UploadAction(c, r), Start(c), Close(c, embed)]) == Some(UploadCommits(env, s.db, r, embed))
  {
    var s' := Apply(env, s, UploadAction(c, r));
    UploadKeeps(env, s, UploadAction(c, r));
    PhaseIsTwoActions(env, s', c, embed);
    OneMoreState(env, s, UploadAction(c, r), [Start(c), Close(c, embed)], States(env, s', [Start(c), Close(c, embed)]).value);
    assert [UploadAction(c, r)] + [Start(c), Close(c, embed)] == [UploadAction(c, r), Start(c), Close(c, embed)];
  }

  /** An upload refused for its idempotency key leaves its blob behind, which is the system's
      aborted upload. */
  lemma ConflictIsAnAbort(env: Environment, s: System, r: UploadRequest)
    requires Configured(env) && Inv(env, s) && KeyOf(r) !in s.blobs
    ensures Enabled(s, AbortUpload(KeyOf(r), r.content))
    ensures Apply(env, s, AbortUpload(KeyOf(r), r.content)) == System(s.db, s.blobs[KeyOf(r) := r.content], s.calls)
    ensures Inv(env, Apply(env, s, AbortUpload(KeyOf(r), r.content)))
  {
    AbortKeeps(env, s, KeyOf(r), r.content);
  }

  lemma BegunRetry(env: Environment, s: System, c: nat, organisation: Uuid, workspace: Uuid, job: Uuid)
    requires Configured(env) && Enabled(s, RetryBegin(c, organisation, workspace, job)) && JobRowSound(s, job)
    ensures var s' := Apply(env, s, RetryBegin(c, organisation, workspace, job));
            && Enabled(s', RetryClean(c)) && JobRowSound(s', job) && s'.calls[c] == RetryQueued(job)
            && s'.db == SetStatus(s.db, job, Queued) && s'.blobs == s.blobs
  {
  }

  lemma CleanedRetry(env: Environment, s: System, c: nat)
    requires Configured(env) && Enabled(s, RetryClean(c)) && JobRowSound(s, s.calls[c].job)
    ensures var j := s.calls[c].job;
            var row, s' := s.db.jobs[j], Apply(env, s, RetryClean(c));
            && Enabled(s', Start(c)) && JobRowSound(s', j)
            && s'.calls[c] == RetryCleaned(j, BlobOf(s, row.version))
            && s'.db == DeleteChunks(s.db, row.version, row.organisation, row.workspace)
            && s'.db.jobs == s.db.jobs && s'.db.versions == s.db.versions
  {
  }

  lemma CleanedRetryIsARun(env: Environment, s: System, c: nat, embed: Embedder)
    requires Configured(env) && Inv(env, s) && Enabled(s, RetryClean(c)) && JobRowSound(s, s.calls[c].job)
    ensures var j := s.calls[c].job;
            States(env, s, [RetryClean(c), Start(c), Close(c, embed)])
            == Some(RerunCommits(env, s.db, j, BlobOf(s, s.db.jobs[j].version), s.db.versions[s.db.jobs[j].version].mediaType, embed))
  {
    var s' := Apply(env, s, RetryClean(c));
    RetryCleanKeeps(env, s, c);
    CleanedRetry(env, s, c);
    PhaseIsTwoActions(env, s', c, embed);
    OneMoreState(env, s, RetryClean(c), [Start(c), Close(c, embed)], States(env, s', [Start(c), Close(c, embed)]).value);
    assert [RetryClean(c)] + [Start(c), Close(c, embed)] == [RetryClean(c), Start(c), Close(c, embed)];
  }

  /** The run after the reset, in terms of the state before it. */
  lemma BegunRetryStates(env: Environment, s: System, c: nat, begin: Action, embed: Embedder)
    requires Configured(env) && Inv(env, s) && begin.RetryBegin? && begin.call == c && Enabled(s, begin)
    requires JobRowSound(s, begin.job)
    ensures States(env, Apply(env, s, begin), [RetryClean(c), Start(c), Close(c, embed)])
            == Some(RerunCommits(env, SetStatus(s.db, begin.job, Queued), begin.job, BlobOf(s, s.db.jobs[begin.job].version),
                                 s.db.versions[s.db.jobs[begin.job].version].mediaType, embed))
  {
    RetryBeginKeeps(env, s, begin);
    BegunRetry(env, s, c, begin.organisation, begin.workspace, begin.job);
    CleanedRetryIsARun(env, Apply(env, s, begin), c, embed);
  }

  lemma BegunRetryIsARun(env: Environment, s: System, c: nat, begin: Action, embed: Embedder)
    requires Configured(env) && begin.RetryBegin? && begin.call == c && Enabled(s, begin) && JobRowSound(s, begin.job)
    requires States(env, Apply(env, s, begin), [RetryClean(c), Start(c), Close(c, embed)])
             == Some(RerunCommits(env, SetStatus(s.db, begin.job, Queued), begin.job, BlobOf(s, s.db.jobs[begin.job].version),
                                  s.db.versions[s.db.jobs[begin.job].version].mediaType, embed))
    ensures States(env, s, [begin, RetryClean(c), Start(c), Close(c, embed)])
            == Some(RetryCommits(env, s.db, begin.job, BlobOf(s, s.db.jobs[begin.job].version), embed))
  {
    var rest := [RetryClean(c), Start(c), Close(c, embed)];
    OneMoreState(env, s, begin, rest, States(env, Apply(env, s, begin), rest).value);
    assert [begin] + rest == [begin, RetryClean(c), Start(c), Close(c, embed)];
  }

  /** Likewise for a retry: begin, clean up, start, close. */
  lemma RetryIsARun(env: Environment, s: System, c: nat, organisation: Uuid, workspace: Uuid, job: Uuid, embed: Embedder)
    requires Configured(env) && Inv(env, s) && c !in s.calls
    requires JobInTenant(s.db, job, organisation, workspace) && s.db.jobs[job].status == Failed
    ensures Enabled(s, RetryBegin(c, organisation, workspace, job))
    ensures JobRowSound(s, job) && RetryRefusal(job, s.db, organisation, workspace).None?
    ensures States(env, s, [RetryBegin(c, organisation, workspace, job), RetryClean(c), Start(c), Close(c, embed)])
            == Some(RetryCommits(env, s.db, job, BlobOf(s, s.db.jobs[job].version), embed))
  {
    assert JobRowSound(s, job);
    BegunRetryStates(env, s, c, RetryBegin(c, organisation, workspace, job), embed);
    BegunRetryIsARun(env, s, c, RetryBegin(c, organisation, workspace, job), embed);
  }

  // ----- the job is found under the call's own tenant, in every interleaving -----

  /** Whatever runs on, a job stays its tenant's. */
  lemma {:induction false} TenantKept(env: Environment, run: seq<Action>, more: seq<Action>, j: Uuid, organisation: Uuid, workspace: Uuid)
    requires Configured(env) && After(env, run).Some? && After(env, run + more).Some?
    requires JobInTenant(After(env, run).value.db, j, organisation, workspace)
    ensures JobInTenant(After(env, run + more).value.db, j, organisation, workspace)
    decreases |more|
  {
    if more == [] {
      assert run + more == run;
    } else {
      var front, a := more[..|more| - 1], more[|more| - 1];
      assert (run + more)[..|run + more| - 1] == run + front;
      TenantKept(env, run, front, j, organisation, workspace);
      JobsKeepVersions(env, After(env, run + front).value, a, j);
    }
  }

  /** Who calls, and about which job. */
  datatype Caller = Caller(organisation: Uuid, workspace: Uuid, job: Uuid)

  function CallerOf(a: Action): Caller
    requires a.Upload? || a.RetryBegin?
  {
    if a.Upload? then Caller(a.row.organisation, a.row.workspace, a.job) else Caller(a.organisation, a.workspace, a.job)
  }

  lemma BegunInTenant(env: Environment, s: System, a: Action)
    requires Configured(env) && Enabled(s, a) && (a.Upload? || a.RetryBegin?)
    ensures var c := CallerOf(a); JobInTenant(Apply(env, s, a).db, c.job, c.organisation, c.workspace)
  {
  }

  /** The query of the ingestion phase, under the row policy with this context. */
  ghost predicate Finds(db: Db, job: Uuid, organisation: Uuid, ctx: RowPolicy.Context) {
    job in db.jobs && db.jobs[job].organisation == organisation && Visible(ctx, organisation, db.jobs[job].workspace)
  }

  /** The 'job not found' exit is unreachable: after an upload or a retry has begun, and
      whatever any other calls do meanwhile, the query for its job by its own organisation,
      under the context its own organisation and workspace set, finds the row. */
  lemma CallFindsJobInTenant(env: Environment, run: seq<Action>, a: Action, more: seq<Action>, ctx: RowPolicy.Context)
    requires Configured(env) && After(env, run + [a] + more).Some?
    requires After(env, run).Some? && Enabled(After(env, run).value, a) && (a.Upload? || a.RetryBegin?)
    ensures var c := CallerOf(a);
            var db := After(env, run + [a] + more).value.db;
            && JobInTenant(db, c.job, c.organisation, c.workspace)
            && (Finds(db, c.job, c.organisation, ctx) <==> ContextIs(ctx, c.organisation, c.workspace))
            && (InTenant(ctx, c.organisation, c.workspace) ==> Finds(db, c.job, c.organisation, ctx))
  {
    Extend(env, run, a);
    BegunInTenant(env, After(env, run).value, a);
    var c := CallerOf(a);
    TenantKept(env, run + [a], more, c.job, c.organisation, c.workspace);
  }

  /** The context names exactly this organisation and workspace. */
  predicate ContextIs(ctx: RowPolicy.Context, organisation: Uuid, workspace: Uuid) {
    RowPolicy.NullIf(ctx.organisation) == Some(organisation) && RowPolicy.NullIf(ctx.workspace) == Some(workspace)
  }
}
