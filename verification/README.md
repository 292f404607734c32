# AtlasCore: protocols and algorithms in Dafny

A model of the parts of AtlasCore whose correctness depends on several functions
together, with proofs of what they keep over all inputs, all runs and all
interleavings.

| file | what it models |
|---|---|
| `LoginProtocol.dfy` | login, rotation and revocation as single database statements of any number of clients, with row locks, commits and rollbacks |
| `Revocations.dfy` | revocations that overlap other transactions of that protocol |
| `RefreshTokens.dfy` | the refresh-token service, one committed transaction per call, and histories of calls |
| `AuthService.dfy`, `LoginRuns.dfy` | pre-auth sessions and the transaction boundaries of the login calls, and their refinement of the statement-level protocol |
| `Ingestion.dfy` | upload, retry and crash as committed transactions; the job status graph |
| `KnowledgeService.dfy` | the knowledge service's methods on one session under the row policy, which loses its context at every commit |
| `RowPolicy.dfy` | the row policy of the six knowledge tables and the scoped session |
| `Fusion.dfy`, `Retrieval.dfy`, `Evidence.dfy` | reciprocal-rank fusion, the retrieval limits, the evidence packet and its band |
| `Markers.dfy`, `Citations.dfy`, `AnswerText.dfy` | citation markers: scanning, extraction, validation, rewriting |
| `Words.dfy`, `Chunker.dfy` | whitespace splitting and the overlapping-window chunker |
| `Ownership.dfy`, `OrgService.dfy` | the one-owner index and deferred trigger under any interleaving, and the membership calls |
| `Envelopes.dfy`, `BlobStore.dfy` | API keys, token hints, storage keys, and the write-then-rename store |
| `Collections.dfy`, `Decimal.dfy` | small sequence and decimal vocabulary |

Code that changes state step by step is a class or a method with a loop, proved equal
to a function of the old state; the claims over runs are lemmas about those functions.
Protocols whose point is concurrency are transition systems over their steps, and
`KnowledgeService.UploadIsARun`, `KnowledgeService.RetryIsARun` and
`LoginRuns.HistoryIsARun` tie the methods to the systems.

## Where the code and its documentation differ

The model follows the code.

- `backend/app/answering/citation.py:164` says unknown markers are removed. Removing one
  that stands inside another leaves a new marker (`AnswerText.DeletionForgesMarkers`);
  `AnswerText.SurvivesExactlyWhenHidden` says exactly when a marker is left, and none is
  when every marker is known.
- `backend/app/answering/evidence.py:19-23` asks three documents for HIGH and lets two
  documents be MEDIUM. One agreed result is HIGH and two results of two documents can be
  LOW; each rule holds exactly in the configurations of
  `Evidence.HighNeedsThreeDocumentsExactlyWhen` and
  `Evidence.TwoDocumentsGiveMediumExactlyWhen`, and `Evidence.BandExactly` gives the
  threshold of every packet.
- `backend/app/api/v1/endpoints/auth.py:360` says a logout revokes the current token
  family. The update runs under the organisation of the access token, which a switch of
  organisation changes (`backend/app/api/v1/endpoints/selector.py:152`); the family dies
  exactly when that is its own (`RefreshTokens.LogoutKillsExactlyUnderOwnOrg`,
  `RefreshTokens.LogoutElsewhereKeepsFamily`).
- `backend/app/services/org_service.py:231` speaks of zero or two owners during a
  transfer; the unique index never lets there be two
  (`Ownership.NoStatementLeavesTwoOwners`).
- `backend/app/knowledge/blob_store.py:36-41` is meant to allow only generated keys; `$`
  also accepts one final newline (`Envelopes.ValidExactlyWhenGenerated`).
- Channel agreement comes first only for limits up to 20, although 50 is allowed
  (`Retrieval.AgreementFirstExactlyUpTo20`).
- The transition check of the ingestion job is never called; the statuses written obey
  it all the same (`Ingestion.StatusesFollowTheTable`).
- A failed job can be retried, but one whose call dies while it is queued or running can
  not; every other job can still be finished
  (`Ingestion.FinishableExactlyWhenNotStranded`).
- A smaller limit gives a prefix of the same fusion, but not of the service's results
  (`Retrieval.PrefixExactlyForEqualLimits`).

## Model

| member | source | states |
|---|---|---|
| `LoginProtocol.ActionKeeps` | backend/app/auth/refresh.py:129-175 | Every single statement, commit or rollback of any client keeps the invariant: phases of open transactions claim disjoint rows, families are chains, openers match sessions |
| `LoginProtocol.FamiliesAreChains` | backend/app/auth/refresh.py:129-175 | In every interleaving of rotations, logins and revocations, with the row lock and with rollbacks at any point, a family is a chain in issue order in which only the last token can be active, and its length is 1 plus its committed rotations |
| `LoginProtocol.ConsumedAtMostOnce` | backend/app/auth/pre_auth.py:106-139 | With lookup and conditional update as separate steps and rollback allowed, at most one consumption of a pre-auth session commits, and its row says whether one did |
| `LoginProtocol.FamiliesMatchSessions` | backend/app/services/auth_service.py:297-381 | Over every run committed families and consumed pre-auth sessions correspond one to one, and each token belongs to the user of the session that opened its family |
| `LoginProtocol.RevocationCommitKeeps` | backend/app/auth/refresh.py:177-217 | Committing a bulk revocation or a detected reuse, whatever subset of rows it has touched, deactivates exactly those rows, changes nothing else, and keeps all chains and openers |
| `LoginProtocol.RollbackLeavesNothing` | backend/app/db/engine.py:143-158 | In every run an open transaction can roll back at any point, and leaves no trace |
| `LoginProtocol.LostClaimLeavesNothing` | backend/app/auth/pre_auth.py:118-139 | In every run a client that has looked a session up can claim it as soon as no open transaction has it claimed, and if another has consumed it meanwhile its transaction leaves no trace |
| `Revocations.OverlappingRevocationKillsExactlyWhen` | backend/app/auth/refresh.py:177-217 | A revocation that overlaps other transactions leaves the family without an active token if and only if no rotation of it has committed since the update began, or the newest token is inactive anyway |
| `RefreshTokens.RefreshTokenService.Create` | backend/app/auth/refresh.py:68-107 | Inserts exactly one active row under the fresh raw token, which lives for the lifetime from now |
| `RefreshTokens.RefreshTokenService.Rotate` | backend/app/auth/refresh.py:109-175 | The whole new table and the answer for every case, field by field: no hint, no row or wrong organisation, replay, expiry, and a successor with a new lifetime |
| `RefreshTokens.RefreshTokenService.RevokeFamily` | backend/app/auth/refresh.py:177-196 | Deactivates exactly the active rows of the family under the given organisation, or under the context the transaction already has, or none at all |
| `RefreshTokens.RefreshTokenService.RevokeAllForUserOrg` | backend/app/auth/refresh.py:198-217 | Deactivates exactly the active rows of the user in the organisation |
| `RefreshTokens.CallKeepsSound` | backend/app/auth/refresh.py:109-217 | Every call keeps: one user, one organisation and at most one active token per family |
| `RefreshTokens.ReuseKillsFamily` | backend/app/auth/refresh.py:144-155 | A replay leaves no active token in the family and changes no other family's active tokens |
| `RefreshTokens.LogoutKillsExactlyUnderOwnOrg` | backend/app/services/auth_service.py:418-444 | A logout kills the family if and only if it runs under the family's own organisation (or nothing was alive), and touches no other family |
| `RefreshTokens.LogoutElsewhereKeepsFamily` | backend/app/api/v1/endpoints/auth.py:366-376 | A logout under another organisation than the family's leaves its active token active |
| `RefreshTokens.LogoutAllKillsTheUsersFamilies` | backend/app/services/auth_service.py:446-470 | Logging out everywhere kills every family of that user in that organisation and leaves all others exactly as they were |
| `RefreshTokens.DeadForever` | backend/app/auth/refresh.py:109-217 | A dead family stays dead through any further calls, none of which rotates a token of it |
| `RefreshTokens.KilledFamiliesStayDead` | backend/app/services/auth_service.py:397-416 | Over every history from the empty table: after a replay, a logout or a logout everywhere has hit a family, no later state has an active token of it and no later refresh of it succeeds |
| `AuthService.PreAuthSessionService.Create` | backend/app/auth/pre_auth.py:57-84 | Inserts one unconsumed session with its expiry |
| `AuthService.PreAuthSessionService.Consume` | backend/app/auth/pre_auth.py:86-139 | Consumed if and only if the session is stored, unconsumed, not past its expiry and not overtaken; reused if and only if it is spent before or by the overtaking request; and the whole new table |
| `AuthService.AuthService.SelectOrganisation` | backend/app/services/auth_service.py:275-381 | Succeeds if and only if the session is consumable, its user and the organisation are active, and the user is a member there; every other case has its own error; consumption and the new family commit together, every refusal after the consumption rolls both back, and a replay commits |
| `AuthService.AuthService.RefreshTokens` | backend/app/services/auth_service.py:383-416 | Every outcome of a rotation is committed, also the family revocation when the call then raises |
| `AuthService.AuthService.Logout` | backend/app/services/auth_service.py:418-444 | The revocation under the given organisation is committed |
| `AuthService.AuthService.LogoutAll` | backend/app/services/auth_service.py:446-470 | The revocation of the user's tokens in the organisation is committed |
| `AuthService.OneSelectionPerSession` | backend/app/services/auth_service.py:275-381 | Over every history of calls at most one selection per pre-auth session succeeds, and none once it is spent |
| `AuthService.OnlyMembersHoldTokens` | backend/app/services/auth_service.py:297-381 | Over every history each row of the token table descends from one accepted selection by its own user, at that moment active, a member, and with a consumable session, of its own organisation, at that moment active |
| `AuthService.HistoryProjects` | backend/app/services/auth_service.py:275-470 | Every history of the login calls is, on the token table, a history of token calls in which only successful selections open families |
| `AuthService.KilledInServiceStaysDead` | backend/app/services/auth_service.py:275-470 | In every history whose families only selections open: after a replay, a logout or a logout everywhere no later state has an active token of the family and no later refresh rotates it |
| `AuthService.ReplayHistory` | backend/app/auth/refresh.py:144-155 | Such a history: a member logs in and refreshes, and the replay of the first token kills the family |
| `LoginRuns.SelectionIsARun` | backend/app/services/auth_service.py:297-381 | What an undisturbed selection commits is what the statements lookup, claim, open, commit do in the protocol, or lookup, claim, rollback when it is refused after the consumption |
| `LoginRuns.RotationIsARun` | backend/app/auth/refresh.py:129-175 | What an undisturbed rotation commits is what lock, deactivate, issue, commit do in the protocol; expiry and replay likewise with their own statements |
| `LoginRuns.BulkRevocationIsARun` | backend/app/auth/refresh.py:177-217 | A logout or logout everywhere is a protocol revocation of exactly the rows its update touches |
| `LoginRuns.HistoryIsARun` | backend/app/services/auth_service.py:275-470 | Every undisturbed history of the service is a run of the statement-level protocol |
| `LoginRuns.ServiceFamiliesMatchSessions` | backend/app/services/auth_service.py:275-381 | After every undisturbed history the families in the service's own table and its spent sessions correspond one to one, with the same user |
| `Ingestion.ActionKeeps` | backend/app/services/knowledge_service.py:491-697 | Every committed transaction of any upload or retry, every crash and every rolled-back upload keeps the invariant over jobs, rows, blobs and calls in progress |
| `Ingestion.CommittedStatesAreSound` | backend/app/services/knowledge_service.py:568-697 | In every committed state of every run a version whose job is not succeeded has no chunk or embedding rows and is not searched; a succeeded one holds exactly the chunker's output of its stored content at indices 0..n-1, each with one embedding of its declared dimensions |
| `Ingestion.RetryIsIdempotent` | backend/app/services/knowledge_service.py:743-835 | Any two histories that end succeeded for the same content leave the same chunk indices, texts, hashes and counts, however often either failed before |
| `Ingestion.PreparedExactly` | backend/app/services/knowledge_service.py:612-648 | An attempt yields rows if and only if every chunk's own text is embedded with the declared dimensions, and then each row is that chunk with the embedding of its own text |
| `Ingestion.ClosesExactly` | backend/app/services/knowledge_service.py:588-697 | The closing commit makes the job succeed if and only if its content parses and every chunk's own text is embedded with the declared dimensions, and then stores those embeddings; otherwise it fails |
| `Ingestion.EmbeddingsAreTheChunks` | backend/app/services/knowledge_service.py:608-655 | Over every run a succeeded job was closed by one action of its own call, and each stored embedding is what that call's embedder answered for that very chunk's text |
| `Ingestion.CleanupRemovesNothing` | backend/app/services/knowledge_service.py:804-817 | The retry's delete never finds a row: a failed job has left none |
| `Ingestion.BlobsAreImmutable` | backend/app/services/knowledge_service.py:463-478 | No action changes or removes the stored content of a version |
| `Ingestion.StatusesFollowTheTable` | backend/app/db/models/knowledge_ingestion_job.py:19-25 | Every status any transaction writes is an edge of the transition table, and new jobs start queued, although the transition check is never called |
| `Ingestion.SuccessIsFinal` | backend/app/db/models/knowledge_ingestion_job.py:19-25 | No action of any call changes a succeeded job or its rows |
| `Ingestion.JobIsAlwaysFound` | backend/app/services/knowledge_service.py:568-586 | In every interleaving a call that reaches its ingestion phase has its job row, queued and later running: nothing removes it or changes its status meanwhile |
| `KnowledgeService.CallFindsJobInTenant` | backend/app/services/knowledge_service.py:572-583 | The not-found exit is unreachable in every interleaving: whatever runs after an upload or retry has begun, the query for its job by its own organisation, under a context of its own organisation and workspace, finds the row, and under any other context it does not |
| `KnowledgeService.ClosingNeverBlocks` | backend/app/services/knowledge_service.py:804-809 | In every state the invariant allows, the closing commit of an attempt meets no existing chunk index |
| `Ingestion.EveryCrashStrands` | backend/app/services/knowledge_service.py:799-802 | In any run, whenever a call dies it leaves its job stranded: queued or running with no call to finish it |
| `Ingestion.UploadCanStrand` | backend/app/services/knowledge_service.py:528-532 | A run that gets there: an upload whose queued job is committed and whose ingestion never starts |
| `Ingestion.RetryCanStrand` | backend/app/services/knowledge_service.py:782-802 | Another run that gets there: a failed job whose retry commits the reset to queued and then cannot read the blob |
| `Ingestion.StrandedForever` | backend/app/services/knowledge_service.py:769-772 | A stranded job keeps its status in every continuation: only failed jobs can be retried |
| `Ingestion.FinishableExactlyWhenNotStranded` | backend/app/services/knowledge_service.py:551-835 | Over every run a job has a continuation in which it ends succeeded or failed if and only if it is not stranded |
| `Ingestion.SucceedsExactlyWhenParseable` | backend/app/services/knowledge_service.py:551-835 | Over every run a job can still end succeeded if and only if it is not stranded and its stored content parses |
| `Ingestion.OneJobPerKey` | backend/app/services/knowledge_service.py:494-512 | Over every run no two jobs of a workspace share an idempotency key |
| `KnowledgeService.KnowledgeSession.SetKnowledgeRlsContext` | backend/app/services/knowledge_service.py:59-72 | Sets organisation and workspace and leaves the user setting |
| `KnowledgeService.KnowledgeSession.Commit` | backend/app/services/knowledge_service.py:530-530 | Publishes the working state and clears the tenant context |
| `KnowledgeService.KnowledgeSession.BeginIngestion` | backend/app/services/knowledge_service.py:568-587 | Under the row policy the job is found if and only if it is the tenant's; then running is committed and the context is set again |
| `KnowledgeService.KnowledgeSession.PrepareRows` | backend/app/services/knowledge_service.py:612-648 | The loop yields each chunk with the embedding of its own text, in order, if and only if all of them are embedded with the declared dimensions; otherwise nothing |
| `KnowledgeService.KnowledgeSession.RunPipeline` | backend/app/services/knowledge_service.py:593-648 | All rows of the attempt if and only if the content parses and every chunk's own text is embedded; otherwise none |
| `KnowledgeService.KnowledgeSession.CloseIngestion` | backend/app/services/knowledge_service.py:650-697 | Rows and the final status are committed together; if and only if a chunk index of the version already exists, both are rolled back |
| `KnowledgeService.KnowledgeSession.RunIngestion` | backend/app/services/knowledge_service.py:551-697 | Exactly the committed states of one phase, every statement under the call's own tenant; the not-found exit is taken if and only if the job is not the tenant's |
| `KnowledgeService.KnowledgeSession.QueueDocument` | backend/app/services/knowledge_service.py:406-530 | Each refusal exactly when its reason holds and no earlier one does, with nothing committed; otherwise document, version and queued job, field by field, in one commit |
| `KnowledgeService.KnowledgeSession.UploadDocument` | backend/app/services/knowledge_service.py:380-549 | Accepted if and only if the source is active and in the tenant, the type supported, the size within the limit, the blob written and the idempotency key new in the workspace; then exactly the commits queued, running, closed; all knowledge statements run under the call's own organisation and workspace, which are set again on return |
| `KnowledgeService.KnowledgeSession.RequeueFailed` | backend/app/services/knowledge_service.py:763-797 | Not found, not failed and version missing, each exactly when that is so, change nothing; otherwise the reset to queued is committed |
| `KnowledgeService.CleanupExcludesConflicts` | backend/app/services/knowledge_service.py:804-817 | After the cleanup no chunk index can conflict with rows an earlier attempt left in the tenant |
| `KnowledgeService.KnowledgeSession.RetryJob` | backend/app/services/knowledge_service.py:743-835 | Refused, or left queued because the blob cannot be read, or exactly the commits queued, cleaned, running, closed, and then successful whatever rows an earlier attempt left in the tenant; all knowledge statements run under the call's own tenant |
| `KnowledgeService.UploadIsARun` | backend/app/services/knowledge_service.py:530-542 | The system enables an upload whose ids are fresh and whose key is new, and what the upload method commits is what the upload, start and close actions commit, so the claims over all runs are claims about the method |
| `KnowledgeService.ConflictIsAnAbort` | backend/app/services/knowledge_service.py:463-512 | The blob that an upload refused for its idempotency key leaves behind is the system's aborted upload, which keeps the invariant |
| `KnowledgeService.RetryIsARun` | backend/app/services/knowledge_service.py:797-831 | The system enables the retry of any failed job of the tenant, and what the retry method commits is what the begin, clean, start and close actions commit |
| `RowPolicy.OrganisationScopedSession.Enter` | backend/app/db/engine.py:118-141 | The context on entry is the organisation, the user and the workspace, or empty where one is missing |
| `RowPolicy.OrganisationScopedSession.Run` | backend/app/db/engine.py:118-158 | Each statement is refused exactly when it would write a row of another tenant, and otherwise answers and changes exactly the own rows its WHERE clause asks for; after a refusal nothing runs until the transaction ends; commit keeps the working rows and clears the context |
| `RowPolicy.OrganisationScopedSession.Exit` | backend/app/db/engine.py:143-158 | Commits the working rows if and only if no exception is propagating and no statement failed; otherwise the committed rows stay |
| `RowPolicy.ExecutesExactly` | backend/alembic/versions/0004_phase_2a_workspace_rls_hardening.py:91-113 | A statement is refused if and only if it would write a foreign row; otherwise select, insert, update and delete concern exactly the own rows of the table that satisfy the WHERE clause, each as often as it occurs |
| `RowPolicy.CommittedRowIsFound` | backend/app/db/engine.py:118-158 | A row inserted at any point of any session under its own tenant and committed is found by the next session of that tenant, unless it was updated, deleted, given up or a statement refused |
| `RowPolicy.SessionIsAllOrNothing` | backend/app/db/engine.py:143-158 | Whatever an adaptive session runs, it leaves exactly the rows it last saw, or, after an exception or a failed statement, the database as it was |
| `RowPolicy.StatementConfined` | backend/alembic/versions/0004_phase_2a_workspace_rls_hardening.py:91-113 | A select, insert, update or delete answers from, and changes, only the pair's own rows |
| `RowPolicy.TenantNoninterference` | backend/alembic/versions/0004_phase_2a_workspace_rls_hardening.py:91-113 | Two databases that agree on an organisation and workspace give any adaptive session of that pair the same answers and stay in agreement, and all other rows end unchanged, however the session ends |
| `RowPolicy.ClosedContextDeniesAll` | backend/alembic/versions/0004_phase_2a_workspace_rls_hardening.py:91-113 | With a setting missing every read is empty, every insert rejected, and updates and deletes touch nothing |
| `RowPolicy.NoWorkspaceChangesNothing` | backend/app/db/engine.py:118-158 | A session entered without a workspace leaves the whole database as it was, whatever it runs |
| `Fusion.ReciprocalRankFusion` | backend/app/retrieval/hybrid.py:62-157 | The loops, the sort and the truncation give a prefix of the one fused ranking |
| `Fusion.AccumulateLexical` | backend/app/retrieval/hybrid.py:86-106 | After the loop the dictionary holds, for each found chunk, exactly its specified slot, in insertion order |
| `Fusion.AccumulateVector` | backend/app/retrieval/hybrid.py:108-128 | The same after the second loop, for both channels |
| `Fusion.FuseIsFusion` | backend/app/retrieval/hybrid.py:130-157 | The ranking lists exactly the found chunks, once each, with the sum of 1/(k+position) over all their positions, by score descending then id |
| `Fusion.FusionUnique` | backend/app/retrieval/hybrid.py:130-134 | Nothing else meets that description |
| `Fusion.FusedChunksDistinct` | backend/app/retrieval/hybrid.py:82-84 | No chunk is returned twice |
| `Fusion.SlotsAreExact` | backend/app/retrieval/hybrid.py:86-128 | Each row carries, per channel, the last position of its chunk and that row's score, or neither, and the provenance of its first row |
| `Fusion.RankingCharacterised` | backend/app/retrieval/hybrid.py:86-134 | A chunk and score are ranked if and only if some channel found the chunk and the score is the sum of its contributions |
| `Fusion.FusionSymmetric` | backend/app/retrieval/hybrid.py:86-134 | Swapping the two channels leaves ids and scores unchanged |
| `Retrieval.Retrieve` | backend/app/retrieval/service.py:132-180 | Both channels cut at the fetch limit, fused, cut at the requested limit; an absent vector channel counts as empty |
| `Retrieval.AgreementDominates` | backend/app/retrieval/hybrid.py:87-134 | With duplicate-free channels of at most 61 candidates every chunk both found precedes every chunk one found |
| `Retrieval.TieBreaksAgreement` | backend/app/retrieval/hybrid.py:130-134 | With 62 candidates the tie 2/122 = 1/61 lets a chunk of one channel come first |
| `Retrieval.AgreementFirstExactlyUpTo20` | backend/app/retrieval/service.py:134-134 | Agreement comes first for all inputs if and only if at most 20 results are requested (limits 1 to 50) |
| `Retrieval.PrefixExactlyForEqualLimits` | backend/app/retrieval/service.py:134-180 | Because a smaller request also fetches fewer candidates, its results are a prefix of a larger request's for all inputs if and only if the limits are equal (1 to 50) |
| `Retrieval.PrefixWhenFetchedWhole` | backend/app/retrieval/service.py:134-180 | They are a prefix whenever the smaller request already fetches both channels whole |
| `Evidence.BuildEvidencePacket` | backend/app/answering/evidence.py:104-187 | The eligible results in rank order numbered from E1; the numbers of different documents and sources and of flagged items of just those; the band, score and limitations these give |
| `Evidence.Gather` | backend/app/answering/service.py:213-241 | Retrieval followed by packet building: every run of duplicate-free channels yields a packet that the claims below are about |
| `Evidence.FirstItemIsBest` | backend/app/answering/evidence.py:268-273 | The item whose score feeds the band has the packet's maximum score |
| `Evidence.ScoreWithinUnit` | backend/app/answering/evidence.py:287-294 | The weighted score is in (0, 1] before the clamp, so the clamp changes nothing, and the penalty takes at most a fifth |
| `Evidence.NoneExactlyWhenEmpty` | backend/app/answering/evidence.py:265-303 | The band is NONE if and only if the packet is empty |
| `Evidence.NoAgreementNeverHigh` | backend/app/answering/evidence.py:278-303 | Unless some item of the packet was found by both channels the band is never HIGH |
| `Evidence.LoneSingleIsLow` | backend/app/answering/evidence.py:265-303 | One lone result of one channel is always LOW |
| `Evidence.BandExactly` | backend/app/answering/evidence.py:287-303 | Every packet is HIGH, and at least MEDIUM, if and only if its top score reaches the threshold that the numbers of its different documents, of items both channels found, of flagged and of all items give |
| `Evidence.SingleResultIsHighExactlyWhen` | backend/app/answering/evidence.py:268-303 | One unflagged result is HIGH if and only if both channels found it and its score is at least 0.0319 |
| `Evidence.OneDocumentIsHigh` | backend/app/answering/evidence.py:20-20 | A retrieval that shows the documented rule failing: one result of one document is HIGH |
| `Evidence.HighNeedsThreeDocumentsExactlyWhen` | backend/app/answering/evidence.py:20-20 | HIGH takes three distinct documents in every retrieval if and only if the configuration lets no evidence through at all |
| `Evidence.TwoDocumentsAreLow` | backend/app/answering/evidence.py:21-21 | A retrieval that shows the documented rule failing: two results of two documents are LOW |
| `Evidence.TwoDocumentsGiveMediumExactlyWhen` | backend/app/answering/evidence.py:21-21 | Two distinct documents give at least MEDIUM in every retrieval if and only if the configuration never lets two results of one channel through |
| `Evidence.LoneSingleAbstains` | backend/app/answering/sufficiency.py:68-83 | Under the default policy one lone result of one channel is always refused as weak evidence |
| `Evidence.AnswersExactlyWhen` | backend/app/answering/sufficiency.py:68-83 | For every policy the provider is called if and only if there are enough items, at least one, and the band is good enough; the other two outcomes likewise |
| `Markers.TokensAreTheText` | backend/app/answering/provider.py:194-194 | The leftmost non-overlapping matches and the text between them put the text back together |
| `Markers.DriveDecides` | backend/app/answering/citation.py:175-175 | A five-state automaton decides whether any string contains a marker |
| `Decimal.ParsePrint` | backend/app/answering/evidence.py:133-133 | Printing a number in decimal yields digits that read back as it |
| `Decimal.PrintedExactlyWhen` | backend/app/answering/evidence.py:133-133 | A text of digits is how a number is printed if and only if it has no leading zero |
| `Citations.ExtractCitationIds` | backend/app/answering/provider.py:525-539 | The distinct ids of exactly the markers in the text, each before those that first appear later |
| `Citations.EvidenceIdInjective` | backend/app/answering/evidence.py:129-133 | Different numbers give different evidence ids |
| `Citations.RankOfEvidenceId` | backend/app/answering/citation.py:142-142 | The sort key inverts the numbering, and every numbered id is well formed |
| `Citations.WellFormedExactly` | backend/app/answering/citation.py:105-109 | An id passes the structural test if and only if it is E and digits, or that and one final newline |
| `Citations.Validate` | backend/app/answering/citation.py:73-143 | The loop and sort return the first error, or the resolved distinct ids by number |
| `Citations.AcceptedExactlyWhenKnown` | backend/app/answering/citation.py:103-116 | The cited ids are accepted if and only if the packet has every one of them |
| `Citations.ErrorIsSomeones` | backend/app/answering/citation.py:105-116 | A reported error is that of one of the cited ids |
| `Citations.FirstUnknownIsReported` | backend/app/answering/citation.py:103-116 | An error is reported if and only if it is that of the first id the packet does not have: malformed, or not in the packet |
| `Citations.ValidationIsFilter` | backend/app/answering/citation.py:100-143 | On success the result is the packet's cited items, in packet order, without duplicates, for any order and repetition of the ids |
| `Citations.ExcerptIs` | backend/app/answering/citation.py:145-152 | The excerpt of any content is its first characters without the whitespace at both ends, and an ellipsis if and only if the content is longer than the limit |
| `AnswerText.FinishAnswer` | backend/app/answering/service.py:323-342 | With the ids extracted from the text and a built packet: faithful when every marker names an item; otherwise no citations, and a marker is left if and only if some stretch of the original hides one |
| `AnswerText.MarkerSurvivesExactlyWhen` | backend/app/answering/citation.py:155-175 | The rewritten text contains a marker if and only if a one-pass scan of the original ends in the found state, for any text and citations |
| `AnswerText.SurvivesExactlyWhenHidden` | backend/app/answering/citation.py:155-175 | The rewritten text contains a marker if and only if the original has a stretch whose literal characters spell one and whose only markers are unknown |
| `AnswerText.DeletionForgesMarkers` | backend/app/answering/citation.py:164-173 | The documented removal of unknown markers fails: deleting one that stands inside another puts a marker together |
| `AnswerText.KnownMarkersLeaveNone` | backend/app/answering/citation.py:168-175 | If every marker of the text is known, none is left, none formed by nested brackets either |
| `AnswerText.RewritingIsComplete` | backend/app/answering/service.py:323-342 | When the ids extracted from a text validate against any packet the builder makes, no marker is left, each became the label of the citation it named, every citation is referred to, and all other text is unchanged |
| `Words.SplitJoin` | backend/app/knowledge/chunker.py:84-95 | Splitting space-joined words gives the words back |
| `Words.SplitExactly` | backend/app/knowledge/chunker.py:84-84 | For every text, splitting yields a list if and only if it is the text's maximal runs of non-whitespace characters, each once, in order |
| `Words.WordsKeepCharacters` | backend/app/knowledge/chunker.py:84-84 | The words together are the text without its whitespace |
| `Chunker.MakeConfig` | backend/app/knowledge/chunker.py:65-76 | A configuration is accepted if and only if 0 <= overlap < size, and each of the three errors has its own condition |
| `Chunker.ChunkText` | backend/app/knowledge/chunker.py:78-110 | The loop yields the closed-form number of windows over the text's words, its maximal runs of non-whitespace characters, with index, text, hash and count, and always leaves by the break |
| `Chunker.ChunkingIsUnique` | backend/app/knowledge/chunker.py:84-110 | A text has exactly one chunking |
| `Chunker.Reconstruction` | backend/app/knowledge/chunker.py:92-108 | The first chunk followed by each later chunk without its overlap is the exact word list, for every list, size and overlap |
| `Chunker.TokenConservation` | backend/app/knowledge/chunker.py:97-104 | All token counts together are n + overlap * (count - 1) |
| `Chunker.EveryChunkAdvances` | backend/app/knowledge/chunker.py:106-108 | No chunk lies inside its predecessor |
| `Chunker.ChunkTextRoundTrip` | backend/app/knowledge/chunker.py:94-95 | Splitting a stored chunk text returns that chunk's words |
| `Chunker.SourceWordsRecoverable` | backend/app/knowledge/chunker.py:84-110 | The text's words, its maximal runs of non-whitespace characters, are recoverable from the stored texts alone, and no such character is lost |
| `Ownership.CountIsOne` | backend/alembic/versions/0001_phase_1a_foundation.py:360-369 | The trigger's count is 1 if and only if there is exactly one owner |
| `Ownership.ActionKeeps` | backend/alembic/versions/0001_phase_1a_foundation.py:337-380 | Every statement, deferred check, commit and rollback of any transaction keeps the invariant over committed rows, row locks, pending owners and passed checks |
| `Ownership.EveryCommittedStateHasOneOwner` | backend/alembic/versions/0001_phase_1a_foundation.py:337-380 | Whatever transactions write and however statements, checks and commits interleave, an organisation has exactly one owner in every committed state if and only if it has a member |
| `Ownership.NoStatementLeavesTwoOwners` | backend/alembic/versions/0001_phase_1a_foundation.py:189-193 | No transaction ever sees two owners of an organisation, between any two statements |
| `Ownership.TriggerRefusesExactlyOwnerless` | backend/alembic/versions/0001_phase_1a_foundation.py:360-369 | In every interleaving the deferred check refuses a transaction if and only if it would leave an organisation it wrote to without an owner |
| `Ownership.TriggerProtectsTheOwner` | backend/app/services/org_service.py:141-154 | A run in which that happens: a transfer to the member commits between a removal's read and its delete, and only the deferred check stops the removal |
| `OrgService.OrgSession.InsertMember` | backend/app/services/org_service.py:112-118 | The insert succeeds if and only if the protocol enables it: new key, existing organisation, and no other owner when the role is owner |
| `OrgService.OrgSession.UpdateRole` | backend/app/services/org_service.py:192-194 | The update succeeds if and only if the index allows it, and writes that row alone |
| `OrgService.OrgSession.Exit` | backend/alembic/versions/0001_phase_1a_foundation.py:375-380 | Commits if and only if no exception is propagating and every deferred check passes |
| `OrgService.OrgSession.DoRegister` | backend/app/services/auth_service.py:115-150 | Organisation and owner membership appear together |
| `OrgService.OrgSession.DoAddMember` | backend/app/services/org_service.py:84-128 | The refusals in the code's order, or one new membership |
| `OrgService.OrgSession.DoRemoveMember` | backend/app/services/org_service.py:130-165 | Not a member and owner are refused; otherwise that row is deleted |
| `OrgService.OrgSession.DoChangeMemberRole` | backend/app/services/org_service.py:167-211 | Not a member, owner and index refusals; otherwise that role is changed |
| `OrgService.OrgSession.DoTransferOwnership` | backend/app/services/org_service.py:213-265 | The refusals in the code's order; otherwise demotion then promotion, which the index lets through in that order |
| `OrgService.OrgSession.Run` | backend/app/services/org_service.py:84-265 | One call in its own scope: the answer and the committed state of the specification |
| `OrgService.TriggerNeverFires` | backend/alembic/versions/0001_phase_1a_foundation.py:337-380 | Run one at a time, a call its own checks and the index let through always commits, and every organisation keeps exactly one owner |
| `OrgService.HistoriesKeepOneOwner` | backend/app/services/org_service.py:84-265 | After any history of registrations, additions, removals, role changes and transfers every organisation has exactly one owner |
| `OrgService.WhoOwns` | backend/app/services/org_service.py:84-265 | Only a registration or a transfer makes anyone an owner, and only in its own organisation |
| `OrgService.CallsDoExactly` | backend/app/services/org_service.py:84-265 | In every sound state each call has each of its errors exactly when that reason holds, an accepted one stores exactly the role it is asked for, and every other membership stays as it was |
| `OrgService.TransferExactlyWhen` | backend/app/services/org_service.py:233-257 | A transfer succeeds if and only if it is from the owner to another member |
| `OrgService.TransferSwapsTwoRoles` | backend/app/services/org_service.py:259-265 | It moves the ownership between the two named members and changes no other row |
| `OrgService.OwnerRoleIsRefused` | backend/alembic/versions/0001_phase_1a_foundation.py:189-193 | Asking for the role owner when adding or changing a member is always refused, by the index |
| `Envelopes.UuidRoundTrip` | backend/app/services/service_account_service.py:98-102 | Reading the canonical text of a UUID gives the UUID |
| `Envelopes.SpellingsAreRead` | backend/app/services/service_account_service.py:98-102 | A UUID is read, in either case, from its digits, with hyphens, in braces and as a URN |
| `Envelopes.HexIntegerExactly` | backend/app/services/service_account_service.py:98-102 | The 32 characters are read as a number if and only if they are space, an optional plus sign, an optional 0x, digits with single underscores, and space |
| `Envelopes.ApiKeyRoundTrip` | backend/app/services/service_account_service.py:94-131 | A generated key parses to its organisation and prefix, whatever the secret contains |
| `Envelopes.UnderstoodExactlyWhen` | backend/app/services/service_account_service.py:94-102 | A presented key is understood if and only if it has the envelope's form around any spelling of a UUID that the parser accepts |
| `Envelopes.HintRoundTrip` | backend/app/auth/refresh.py:51-59 | A refresh token's hint is its organisation, unless the secret is empty |
| `Envelopes.HintExactlyWhen` | backend/app/auth/refresh.py:51-59 | A token names an organisation if and only if a UUID stands before its first dot and something after it |
| `Envelopes.ValidExactlyWhenGenerated` | backend/app/knowledge/blob_store.py:36-92 | A key passes validation if and only if it is a generated one, or one with a final newline added |
| `Envelopes.KeysAreInjective` | backend/app/knowledge/blob_store.py:64-78 | Two versions never share a storage key |
| `BlobStore.LocalFilesystemBlobStore.Put` | backend/app/knowledge/blob_store.py:175-197 | Whatever fails, a reader of any valid key sees its old content or all of the new one, at every point a crash could stop the write; success stores exactly the content, and no temporary file stays unless the cleanup itself fails |
| `BlobStore.LocalFilesystemBlobStore.Get` | backend/app/knowledge/blob_store.py:199-204 | Returns the stored content, not found, or invalid key |
| `BlobStore.LocalFilesystemBlobStore.Delete` | backend/app/knowledge/blob_store.py:206-209 | Removes that file alone; deleting a missing one is no error |

## Left out

- Floating point: scores are exact reals, so ties and thresholds are those of the formula, not of its rounding.
- Integer width: Python integers are unbounded, as here; limits, `k` and counts are non-negative.
- Characters: digits are ASCII; other Unicode digits are not modelled.
- UUIDs are numbers below 2^128: the string order of their canonical text is the order of the numbers. Reading one accepts every spelling the parser does, with ASCII digits.
- Hashing, keyed hashing and random generation: hashes are injective and keys are the raw tokens, SHA-256 is an arbitrary function, ids and secrets drawn by a call are fresh.
- Comparison of the stored digest after a blob write (`backend/app/services/knowledge_service.py:473-476`): both sides hash the same bytes.
- Embedding values, parsers and the provider: arbitrary functions that may fail; the injection patterns are an arbitrary detector.
- Full-text and vector ranking: each channel is an arbitrary ordered candidate list, without duplicates where a claim says so.
- LoginProtocol.FamiliesAreChains: rows are read as last committed, one statement at a time; a bulk revocation may touch any subset of rows in any order.
- RefreshTokens.KilledFamiliesStayDead: whole calls are atomic steps; what a revocation that overlaps other transactions does is the subject of `Revocations`.
- Revocations.OverlappingRevocationKillsExactlyWhen: that a bulk update goes through the rows its snapshot shows, and no others, is taken from the database.
- LoginRuns.HistoryIsARun: calls one at a time; a selection that another request overtakes is a call of `AuthService`, but not of these histories.
- AuthService.AuthService.SelectOrganisation: audit rows, the request's own checks and the returned user and organisation rows are not modelled.
- Ingestion.CommittedStatesAreSound: two retries of one job at once are not modelled (a retry's first transaction is one step); deleting documents, archiving and the audit rows are not modelled, and writing an audit row never fails.
- Ingestion.RetryIsIdempotent: embedding values may differ between attempts and are not compared; row ids are not modelled.
- KnowledgeService.KnowledgeSession.UploadDocument: one session without interference; interleavings are the subject of `Ingestion`. Document rows are part of the version row, and the version number, always 1 for a new document, is not kept.
- RowPolicy.TenantNoninterference: unique constraints and foreign keys, which could reveal rows of another tenant, are not modelled, nor is the separate policy that lets a user read their own memberships.
- Ownership.EveryCommittedStateHasOneOwner: organisations are not deleted and a membership row never moves to another organisation; no service does either, and the trigger would not check the organisation it left.
- OrgService.OrgSession.DoRegister: e-mail and slug checks, the default workspace and its membership are not modelled.
- Evidence.BuildEvidencePacket: limitations are values, not their sentences.
- Citations.Validate: an id that is not a string cannot occur.
- BlobStore.LocalFilesystemBlobStore.Put: two writers of one key, which would share a temporary file; every key carries a version id drawn for its one upload. Symbolic links and the check that the path stays below the root are not modelled.
- Markdown stripping, query normalisation, permissions, workspaces, teams, invitations, service-account rows, HTTP endpoints, cookies, settings and the frontend: input and output, or only easy members.
