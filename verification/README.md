# OB2 verification

A Dafny model of the stateful parts of OB2, a self-hosted retrieval platform, with proofs of what
each of them keeps. Every file is one component; classes and methods follow OB2's loops and
field updates and are tied to functions on values, and the theorems are about those functions, over
all inputs, all runs or all interleavings. `dafny verify dfyconfig.toml` checks the whole project.

| file | component |
|---|---|
| `graph_store.dfy`, `graph_integrity.dfy` | the knowledge graph (documents, aliases, entities, mentions, edges), extraction and pruning |
| `bundle.dfy`, `bundle_roundtrip.dfy`, `bundle_runs.dfy` | export of a domain, import into any store under any name, and chains of both |
| `two_tier.dfy` | write-behind replication from SQLite to pgvector |
| `sse_codec.dfy`, `sse_cuts.dfy` | the printer and the incremental parser of chat completion event streams, and what read boundaries do to it |
| `gguf.dfy` | the GGUF header reader |
| `embed_batcher.dfy`, `supervisor.dfy`, `rpc_client.dfy` | the embedding batcher, the llama-server supervisor with its load mutex, the JSON-RPC client |
| `engine_cache.dfy` | the retrieval engines of the sidecar as a cache of the document table |
| `retriever.dfy`, `compressor.dfy` | the TF-IDF index, the compressor and the token budget |
| `rate_limit.dfy`, `chunker.dfy` | the fixed-window rate limiter, the overlapping chunker |
| `text.dfy`, `options.dfy` | whitespace classes, trimming, joining and ASCII case mapping; optional values |

Library code is a parameter: SHA-1 (taken to be collision-free), NFKC, the embedder, the tokenizer,
the logarithm and square root over the reals, the sentence splitter, and JSON as any printer whose
text is one line from `{` to `}` that its parser reads back (section 5 of JSON-RPC 2.0 for the
responses). `SseCodec.LawfulIsSatisfiable` shows that such a printer exists. What a model replies, how
a stream is cut, which write fails and how steps interleave are arbitrary inputs.

## Where the code does less than its documentation says

The model follows the code. Each of these has an input that shows it and, where the claim is a
theorem otherwise, the exact condition.

- `synced` does not imply that pgvector has the row: a row rewritten between a drain's listing and its
  mark is marked without having been pushed (`TwoTier.WriteInsideDrainIsLost`, `TwoTier.MarkTruthfulIff`).
  Nor does a delete in both stores keep a document out of pgvector: a drain that has it listed pushes it
  back (`TwoTier.PushAfterDeleteComesBack`). `TwoTier.ReplicaIsBackedIff` says exactly when what pgvector
  holds has its SQLite row.
- Newlines are normalised read by read, so a CR LF pair cut in two becomes a blank line and splits an
  event (`SseCodec.CrLfCutChangesChunks`). Sections 9.2.5 and 9.2.6 of the WHATWG HTML standard treat
  the pair as one line end. `SseCuts.CutsChangeChunksIff` says exactly which cuts change the chunks.
- An import is an exact copy only of an exportable domain (`BundleRoundTrip.ImportFaithfulIff`): a
  relation cut to 64 characters can end in white space, which import strips (`Bundle.RelationCutAtTab`);
  an alias can give an entity an empty name, which import drops (`Bundle.EmptyNameFromAlias`); mentions
  on documents that are not user documents are not exported.
- A capture with an id its cached domain already holds leaves the old text beside the new one
  (`EngineCache.RecaptureBreaks`); a blank document stops hydration halfway and the partial engine stays
  cached. `EngineCache.CoherentIff` says exactly which calls are safe.
- A line `null` on the sidecar's output ends the read loop, and answers behind it are never read
  (`RpcClient.NullLosesAnswers`, `RpcClient.NoAnswerAfterNull`).
- The rate limiter lets through up to `2 * limit - 1` calls in one window length (`RateLimit.BoundIsReached`).
- `shutdown` of the batcher flushes once, and its thread once more when it had passed its test; what is
  buffered beyond these batches waits for ever (`EmbedBatcher.ShutdownTakesAllIff`, `EmbedBatcher.OneLeftBehind`).
- `hardCut` never ends on a body longer than a piece when the overlap is not smaller than a piece
  (`Chunker.LoopEndsIff`).

## Model

| member | source | states |
|---|---|---|
| GraphIntegrity.RunsAreSound | retrieval/storage/sqlite_vec.py:563-690 | after any run of captures, alias changes, extractions with any model reply and deletes: every mention has an entity row, every entity its own id and a mention, every edge joins two different mentioned entities smaller id first, and the counts summed per id cover the mention rows (runs with imports: `BundleRuns.RunsWithImportsAreSound`) |
| GraphIntegrity.ApplyKeeps | retrieval/sidecar.py:1735-1787 | each single operation keeps that integrity from any state that has it |
| GraphIntegrity.PruneSound | retrieval/storage/sqlite_vec.py:632-670 | pruning a document leaves no dangling mention, orphan entity or edge |
| GraphIntegrity.PutCovered | retrieval/storage/sqlite_vec.py:563-609 | incrementing a count with each mention keeps the counts above the rows, whatever spellings share an id |
| GraphIntegrity.OtherDomainsUntouched | retrieval/sidecar.py:1716-1808 | an operation on one domain leaves every table of every other domain as it was, unless a capture takes an id of that domain |
| GraphIntegrity.RunIsExact | retrieval/sidecar.py:1753-1768 | after any run of the five operations in which each reply gives each entity once and in the stored spelling, every count equals the number of mention rows |
| GraphIntegrity.ExtractedExact | retrieval/sidecar.py:1753-1768 | the step of it: one such extraction, with its prune, keeps every count exact |
| GraphIntegrity.ExtractIsIdempotent | retrieval/sidecar.py:1719-1720 | extracting a document twice with the same outcome of the model call leaves the same entity rows, mentions and edge keys as once, although the second run prunes first; stores whose edge order an import has changed included |
| GraphIntegrity.PruneAgain | retrieval/storage/sqlite_vec.py:648-669 | pruning the document again takes away nothing that was there before its reply was stored |
| GraphStore.LessTotal | retrieval/sidecar.py:1783-1785 | string order is total and antisymmetric, so an undirected pair has one stored direction |
| GraphStore.Store.DeleteDocGraph | retrieval/storage/sqlite_vec.py:632-674 | the per-entity loop leaves exactly the tables of the simultaneous prune, and returns how many mentions it removed |
| GraphStore.Store.DeleteDoc | retrieval/storage/sqlite_vec.py:426-448 | the document and its graph are gone and nothing else is |
| GraphStore.Store.DeleteDomain | retrieval/storage/sqlite_vec.py:450-478 | every table loses the rows of the domain only, and the number of its documents is returned |
| GraphStore.EdgeRecordsPuts | retrieval/storage/sqlite_vec.py:611-630 | however edges are upserted, the weight of an edge grows by the number of its own upserts, and its evidence is the newest that any of them brought, or what was there |
| GraphStore.Store.ExtractEntities | retrieval/sidecar.py:1716-1815 | prune, then entities, then relations: the new tables and the counts returned, on every error path |
| Bundle.IdParts | retrieval/sidecar.py:1604-1607 | within a domain an id stands for one type and one lower-cased name, for the allowed types |
| Bundle.RelationSurvivesIff | retrieval/sidecar.py:1776-1776 | a relation extraction stores survives import unchanged if and only if its last character is not white space |
| Bundle.RelationCutAtTab | retrieval/sidecar.py:1236-1237 | a relation of 63 letters, a tab and a letter does not survive |
| Bundle.EmptyNameFromAlias | retrieval/sidecar.py:1760-1763 | an alias whose canonical form normalises to nothing makes extraction store an empty name |
| Bundle.ImportRelationIdempotent | retrieval/sidecar.py:1236-1236 | importing what an import stored changes no relation further |
| Bundle.ExportDomain | retrieval/sidecar.py:829-914 | the bundle lists each alias, user document, entity, mention on a user document and edge of the domain exactly once, and nothing else; a domain without documents gives an error |
| Bundle.ImportDocs | retrieval/sidecar.py:1096-1145 | batches of 256: all rows under their new ids with their original noted, or the full batches before the first unreadable row |
| Bundle.ImportDomain | retrieval/sidecar.py:992-1289 | every refusal in order, the rollback, and on success the tables and the five counts |
| BundleRoundTrip.ImportFaithfulIff | retrieval/sidecar.py:992-1241 | exporting a sound domain and importing it, with or without a target override, into an empty domain of any store succeeds, and the target is the domain with documents and entities renamed one to one (texts, embeddings, metadata without the note, aliases, entities, mentions, edge ends and relations, exact counts) if and only if the domain is exportable |
| BundleRoundTrip.ImportSucceeds | retrieval/sidecar.py:1274-1284 | the import of an export into an empty domain of any store is never refused, and leaves what the five import loops leave, with the exported number of documents |
| BundleRoundTrip.DocsMatchIff | retrieval/sidecar.py:1113-1145 | the document renaming is a bijection of the user documents that keeps text, embedding and metadata, unless one has the empty id |
| BundleRoundTrip.EntitiesMatchIff | retrieval/sidecar.py:1169-1190 | the entity renaming is a bijection of the ids that keeps type and name if and only if no name is empty |
| BundleRoundTrip.MentionsMatchIff | retrieval/sidecar.py:1197-1213 | mentions correspond both ways if and only if all are on user documents |
| BundleRoundTrip.EdgesMatchIff | retrieval/sidecar.py:1225-1241 | edges correspond both ways, ends and relation as stored, if and only if import leaves every relation alone |
| BundleRoundTrip.AliasesMatchIff | retrieval/sidecar.py:1148-1154 | aliases correspond if and only if neither side of one is empty |
| BundleRoundTrip.CountsAreExact | retrieval/storage/sqlite_vec.py:866-876 | after an import every count is the number of mention rows |
| BundleRoundTrip.ImportTouchesOnlyTarget | retrieval/sidecar.py:1102-1106 | the import of any bundle, refused or not, leaves every domain but its target as it was, when the new document ids are not taken from that domain |
| BundleRoundTrip.RefusedImportChangesNothingIff | retrieval/sidecar.py:1122-1126 | a refused import of any bundle leaves the store as it was, batches written before an unreadable row included, if and only if it was refused before the first write or the target had no graph rows |
| BundleRuns.ImportSoundIff | retrieval/sidecar.py:1169-1241 | the imported domain has the integrity of the store if and only if every named entity of the exported one is mentioned by a user document |
| BundleRuns.ImportedIsExportable | retrieval/sidecar.py:1113-1241 | what an import leaves is exportable, whatever was exported: what can be lost is lost the first time |
| BundleRuns.RoundTripsCompose | retrieval/sidecar.py:829-1289 | exporting the copy and importing it somewhere else gives a copy of the original, under the composed renamings |
| BundleRuns.AnyImportKeepsIff | retrieval/sidecar.py:1042-1241 | the import of any bundle into any target, one that holds graph rows included, keeps the counts covering the mentions, and keeps integrity if and only if it is refused, early or with its rollback, or every entity row it accepts is mentioned by the target already or by a mention row it maps |
| BundleRuns.RunsWithImportsAreSound | retrieval/sidecar.py:992-1289 | integrity and covered counts hold after any run of the store operations and of imports of any bundles that are refused, early or with a rollback, or bring a mention for every entity row they take |
| BundleRuns.AnchoredStepOk | retrieval/sidecar.py:1169-1241 | importing an exported domain whose named entities are all mentioned by user documents into an empty one is a step of such runs |
| TwoTier.SyncedMeansReplicated | retrieval/storage/two_tier.py:85-124 | in every interleaving of writes, half-done deletes and split drain steps with failing pushes, a row marked synced and never written inside a drain window is in pgvector exactly as in SQLite, unless a delete of it has reached pgvector and not yet been done in SQLite |
| TwoTier.StepKeeps | retrieval/storage/two_tier.py:85-174 | every single step keeps the invariant behind it: ids stay unique, what is listed and not yet pushed, and which rows may differ |
| TwoTier.MarkTruthfulIff | retrieval/storage/two_tier.py:88-103 | with any writes and deletes in the window, a row listed by a drain that completes is in pgvector as SQLite has it if and only if it is still the copy that was listed and no delete of that copy reached pgvector after its push |
| TwoTier.ReplicaIsBackedIff | retrieval/storage/two_tier.py:242-258 | after any interleaving, a document pgvector holds has its SQLite row, in the same domain and with no delete half done, if and only if a delete that missed pgvector, a change of domain or a push that raced a delete has not happened to it, or has been made good since by a delete that reached it, a clean push or a clean rewrite |
| TwoTier.PushAfterDeleteComesBack | retrieval/storage/two_tier.py:88-101 | a document deleted in both stores while a drain has it listed ends in pgvector alone |
| TwoTier.WriteInsideDrainIsLost | retrieval/storage/sqlite_vec.py:263-272 | one write between listing and mark ends marked synced with the older text in pgvector |
| TwoTier.DrainsCatchUp | retrieval/storage/two_tier.py:85-111 | with writes stopped and pgvector up, `k` drains empty the pending set exactly when `k * limit` covers it, and then every row is replicated |
| TwoTier.FailureThenRetry | retrieval/storage/two_tier.py:115-124 | a drain that fails after any number of domain groups leaves the pending set as it was, and retrying gives the same stores as no failure |
| TwoTier.FailuresThenRetry | retrieval/storage/two_tier.py:115-124 | the same after any number of failed attempts, each stopping at its own group |
| TwoTier.GroupByDomainShape | retrieval/storage/two_tier.py:92-95 | the groups are of one domain each and hold exactly the listed documents, so the replica's per-batch domain check never fails |
| TwoTier.SqliteDocs.UpsertOne | retrieval/storage/sqlite_vec.py:236-280 | a new row at the end, or the row updated in place with its sync mark reset |
| TwoTier.SqliteDocs.ListUnsynced | retrieval/storage/sqlite_vec.py:903-921 | the first `limit` unsynced documents, oldest first |
| TwoTier.SqliteDocs.MarkSynced | retrieval/storage/sqlite_vec.py:923-934 | marks exactly the rows with the given ids |
| TwoTier.PgDocs.UpsertDocsBatch | retrieval/storage/pg_vector.py:204-240 | all of the batch or none of it: a document of another domain or a lost connection changes nothing |
| TwoTier.SyncWorker.PushGroups | retrieval/storage/two_tier.py:99-101 | stops at the first group that fails, with the earlier groups pushed |
| TwoTier.SyncWorker.DrainOnce | retrieval/storage/two_tier.py:85-124 | is the list, push and mark steps of the protocol in sequence; reachability and the doubled, capped back-off |
| TwoTier.DeleteBoth | retrieval/storage/two_tier.py:242-258 | deletes in SQLite in any case and in pgvector when it is reachable |
| SseCodec.RoundTrip | server/llm/openai_sse.ts:31-66 | printing any chunk sequence, cutting the text anywhere and parsing it gives the non-empty contents up to the first terminal chunk, then one terminal chunk with its reason (or `stop`) if and only if the source had one |
| SseCodec.SplitInvariance | server/llm/sse_parsers.ts:47-81 | when no cut falls inside a CR LF pair, the chunks and the way the stream ends do not depend on the cuts |
| SseCuts.CutsChangeChunksIff | server/llm/sse_parsers.ts:47-81 | the division of a text into reads changes the chunks, for some meaning of the payloads, if and only if a CR LF pair is cut inside an event behind one of its data lines, and either the event is closed by a blank line, has another data line to come and no `[DONE]` came before it, or it is never closed and the cut reading has met no `[DONE]` up to there |
| SseCuts.HarmlessCuts | server/llm/sse_parsers.ts:47-85 | without such a cut no meaning of the payloads gives other chunks or another failure |
| SseCuts.FramesAreEvents | server/llm/sse_parsers.ts:51-57 | taking frames off the buffer at blank lines gives the payloads of the line-by-line reading of an event stream, for any text |
| SseCodec.SeesNormalizedTextIff | server/llm/sse_parsers.ts:47-49 | the buffer holds the normalised text of the whole stream if and only if no read ends between CR and LF |
| SseCodec.NormalizeAppend | server/llm/sse_parsers.ts:47-49 | normalising two pieces separately agrees with normalising them together if and only if the cut is not inside a CR LF pair |
| SseCodec.CrLfCutChangesChunks | server/llm/sse_parsers.ts:47-57 | a cut inside CR LF turns a two-line event into two events, for all plain values |
| SseCodec.CrFreeIsClean | server/llm/sse_parsers.ts:47-49 | every cut of CR-free text is harmless |
| SseCodec.DrainAppend | server/llm/sse_parsers.ts:51-81 | text taken in two portions is handled as the text taken at once, even inside the blank line |
| SseCodec.ExpectedUnfold | server/llm/openai_sse.ts:45-65 | what the round trip promises, read chunk by chunk |
| SseCodec.LawfulIsSatisfiable | server/llm/openai_sse.ts:42-50 | an escaping printer with its inverse meets what is asked of JSON |
| SseCodec.EncodeStream | server/llm/openai_sse.ts:31-81 | the read loop prints the events of the source: the role once, contents, the final frame and `[DONE]`, or the error frame and `[DONE]` |
| SseCodec.SseParser.Read | server/llm/sse_parsers.ts:40-82 | one read appends the normalised piece and handles every complete frame |
| SseCodec.SseParser.Pull | server/llm/sse_parsers.ts:34-86 | reading to the end gives the chunks of all pieces |
| Gguf.ParsePrefix | llamacpp-manager/models.ts:43-85 | for any list of pairs, nested arrays included, and whatever follows it, reading the first `n` bytes recovers exactly the fields of the pairs lying wholly inside them, the last one winning |
| Gguf.ReadValueEncoded | llamacpp-manager/models.ts:91-148 | reading the encoding of a value gives that value and the offset past it when all of it is inside the prefix, and nothing otherwise |
| Gguf.SkipEncoded | llamacpp-manager/models.ts:129-143 | the element loop of an array ends just past its elements, or nowhere when one is cut off |
| Gguf.ReadValue | llamacpp-manager/models.ts:91-148 | the offset returned is past the one given and within the bytes read, for any bytes; this bounds the recursion and the loop |
| Gguf.ReadValueAt | llamacpp-manager/models.ts:91-148 | the recursive reader with its loop computes that function |
| Gguf.ParseGgufHeader | llamacpp-manager/models.ts:30-89 | magic, version and length checks, then the pairs that can be read |
| Gguf.WholePairsLongest | llamacpp-manager/models.ts:51-67 | the pairs recovered are the longest prefix whose encoding fits |
| Gguf.LastWins | llamacpp-manager/models.ts:69-83 | each field is the one set by the last pair that sets it |
| Gguf.LittleRoundTrip | llamacpp-manager/models.ts:43-47 | little-endian words read back, at every width |
| EmbedBatcher.RunsAreSafe | retrieval/embed_batcher.py:65-165 | in every interleaving of callers and flushes, batches have between one and `max_batch` entries, taken once each in arrival order, and a caller that is awake holds the vector of its own text or the exception of the batch that took it |
| EmbedBatcher.TakenInTurn | retrieval/embed_batcher.py:129-134 | an entry with `p` ahead of it is taken by exactly the `p / max_batch + 1`-th flush to come |
| EmbedBatcher.TakenOnce | retrieval/embed_batcher.py:130-134 | two places in the batches hold one caller only if they are the same place |
| EmbedBatcher.ShutdownTakesAllIff | retrieval/embed_batcher.py:122-181 | when `shutdown` has flushed and the thread is gone, every entry buffered when it was called has been taken if and only if there were at most `max_batch` of them, or at most twice as many when the thread had then passed its test |
| EmbedBatcher.OneLeftBehind | retrieval/embed_batcher.py:122-181 | two callers with batches of one: the second is left in the buffer |
| EmbedBatcher.Batcher.FlushOnce | retrieval/embed_batcher.py:129-160 | takes the front, writes to each holder the vector at its place in the one list that the model returns, or the exception, so that each gets the vector of its own text; wakes its callers and counts only successful batches |
| EmbedBatcher.Batcher.Append | retrieval/embed_batcher.py:97-103 | the texts join the buffer in order with empty holders |
| Supervisor.OperationsExclude | llamacpp-manager/main.ts:76-145 | under any interleaving, with operations that are rejected included, at most one load, unload or restart is under way, and one that has begun has seen every earlier one settle |
| Supervisor.ChainNeverBlocks | llamacpp-manager/main.ts:96-134 | a rejected operation does not block the next: while an operation has not settled, the first such one is under way or can begin, and no other can |
| Supervisor.TurnIff | llamacpp-manager/main.ts:96-113 | an operation can begin exactly when every earlier one has settled, although it waits for one promise only |
| Supervisor.AtMostOneServer | llamacpp-manager/main.ts:96-193 | after any interleaving, restarts of a model no longer persisted included, at most one process is alive and it is the child held; the state says running exactly when a child is held and names its model; no spawn ever finds a child in the way |
| Supervisor.LateWatcherIsHarmless | llamacpp-manager/process.ts:115-121 | an exit watcher that runs late changes nothing about a newer generation |
| Supervisor.IdleModelIsPersisted | llamacpp-manager/main.ts:107-113 | when every state write succeeds, a model running while no operation is under way is the persisted one |
| Supervisor.LastWriteDecides | llamacpp-manager/state.ts:45-54 | when the last write of the state file is that of an operation and all is quiet, a model that runs is the one it wrote, and the file names it if and only if the write went through or the file named it before |
| Supervisor.LlamaSupervisor.Spawn | llamacpp-manager/process.ts:51-86 | refuses when a child is held, changes nothing when the process does not start, and otherwise holds the new one |
| Supervisor.LlamaSupervisor.WatchExit | llamacpp-manager/process.ts:109-122 | clears the state only for the generation it was started for |
| RpcClient.AnswersReachTheirCalls | server/sidecar.ts:66-120 | under any interleaving of calls, writes that arrive and then succeed or fail, answers, repeated answers, other lines, `null` included, and re-cut bytes, a call is pending exactly when nothing has tried to settle its promise, and an answered call got exactly what the server computed for its own method and parameters |
| RpcClient.NothingIsLost | server/sidecar.ts:102-120 | when every write is made and every request read, each pending call has its own answer as the first to it in the text not yet read, so that none is pending when the read loop runs and every byte is delivered |
| RpcClient.NoAnswerAfterNull | server/sidecar.ts:69-92 | after a line `null` no call is ever answered again, whatever follows |
| RpcClient.NullLosesAnswers | server/sidecar.ts:84-92 | a `null` in front of an answer leaves the call pending with all of the text delivered |
| RpcClient.SettledOnce | server/sidecar.ts:92-118 | after any run, a promise is answered at most once and no later answer reaches it; a second attempt to settle it is made exactly by the failure of its own write after its answer |
| RpcClient.LateWriteErrorRejectsAgain | server/sidecar.ts:113-118 | and that happens: the bytes arrive, the answer comes, the write fails |
| RpcClient.DrainHandlesPrefix | server/sidecar.ts:73-80 | wherever the bytes are cut, a prefix of the lines has been handled, up to the first `null` at most, and the rest is still in the buffer and on the wire |
| RpcClient.FirstAnswerWins | server/sidecar.ts:84-99 | of any list of lines, the first in front of a `null` that answers a pending call settles it, once and with its own reply; lines that are no answers, answer nothing pending or answer again change nothing; and the loop still runs exactly when no line was `null` |
| RpcClient.Sidecar.OnChunk | server/sidecar.ts:66-82 | a chunk is appended and every complete line handled, until one ends the loop |
| RpcClient.Sidecar.Begin | server/sidecar.ts:102-112 | a call gets the next id and is pending |
| EngineCache.CoherentIff | retrieval/sidecar.py:202-341 | a call leaves every cached engine equal, as a multiset of id and text, to its domain in the table if and only if it is safe by a condition on the state before it: no id taken from another cached domain, a capture into a cached domain new there and not blank, a hydration without blank documents |
| EngineCache.OrdinaryRuns | retrieval/sidecar.py:1122-1126 | after any run of ordinary calls (fresh capture ids, no blank text), failed imports included, a retrieval answers from exactly the domain's documents |
| EngineCache.RecaptureBreaks | retrieval/sidecar.py:276-279 | capturing an id again while its domain is cached leaves the old text beside the new |
| EngineCache.PutAllElsewhere | retrieval/storage/sqlite_vec.py:250-280 | writing into one domain leaves another as it was unless it takes one of its ids, and then the other has fewer documents |
| EngineCache.HydratedIff | context-engine/retriever.py:113-117 | hydration is complete if and only if no document is refused by its constructor |
| EngineCache.Sidecar.Hydrate | retrieval/sidecar.py:202-231 | the engine is cached before it is filled, so a refused document leaves the documents before it cached |
| EngineCache.Sidecar.Capture | retrieval/sidecar.py:247-285 | the row is written in any case; the cached engine gets the document unless its constructor raises |
| EngineCache.Sidecar.CaptureBatch | retrieval/sidecar.py:288-328 | the rows are written and the cached engine dropped |
| EngineCache.Sidecar.ImportBundle | retrieval/sidecar.py:1042-1145 | the table and the cache after a refusal, a rollback, an exception and a success |
| Retriever.ScoreBounds | context-engine/retriever.py:281-304 | every TF-IDF score is between zero and one, and positive if and only if query and document share a token |
| Retriever.ModesAgree | context-engine/retriever.py:261-304 | the keyword mode and the TF-IDF mode return the same documents for every query and every index |
| Retriever.CauchySchwarz | context-engine/retriever.py:158-165 | the inequality over sparse vectors and any set of keys |
| Retriever.CosineBounds | context-engine/retriever.py:158-165 | the similarity of non-negative vectors is between zero and one, and positive if and only if they share a key |
| Retriever.IdfAtLeastOne | context-engine/retriever.py:222-224 | every inverse document frequency is at least one |
| Retriever.CosineSim | context-engine/retriever.py:158-165 | the sums taken in whatever order give the similarity |
| Retriever.Index.AddDocument | context-engine/retriever.py:208-220 | keeps the counter of every token equal to the number of documents containing it, and a cached table gains the embedding of the new text as its last row |
| Retriever.Index.EnsureEmbeddings | context-engine/retriever.py:312-314 | afterwards the cache holds, for each `i`, the embedding of the text of document `i` in row `i` |
| Retriever.Index.TfidfRetrieve | context-engine/retriever.py:281-302 | finds the documents with a positive score, in index order |
| Retriever.Index.KeywordRetrieve | context-engine/retriever.py:261-276 | finds the documents that share a token with the query, in index order |
| Compressor.CompressedFits | context-engine/compressor.py:120-240 | every strategy's output has at most `max_chars` characters |
| Compressor.ExtractiveExact | context-engine/compressor.py:214-240 | when a sentence is selected, the output is the selected sentences in document order, two spaces apart, and exactly as long as the budget spent |
| Compressor.GreedyBalanced | context-engine/compressor.py:219-226 | the budget left and the joined length of what is selected always add up to the limit |
| Compressor.RankOrdered | context-engine/compressor.py:212-212 | descending by score, earlier sentences first among equals |
| Compressor.RankIsPermutation | context-engine/compressor.py:212-212 | every sentence is ranked once |
| Compressor.CompressorObject.SentenceStrategy | context-engine/compressor.py:182-197 | the sentences that fit, from the first on |
| Compressor.CompressorObject.SelectSentences | context-engine/compressor.py:214-226 | the greedy loop with its safety margin |
| Compressor.CompressorObject.Compress | context-engine/compressor.py:120-172 | short chunks dropped, the text as it is when it fits, and otherwise the strategy's text |
| Compressor.TokenBudget.ReserveText | context-engine/compressor.py:263-264 | the sum used grows by the tokens of the text less what the slot held before, so a slot reserved twice counts once |
| Compressor.TokenBudget.Remaining | context-engine/compressor.py:266-267 | what is left of the total, and never less than zero |
| Compressor.Build | context-engine/context_engineering.py:116-138 | the three slots add up to at most the total, or to what system prompt and history alone need when that is more |
| RateLimit.AtMostTwiceLessOne | server/auth/rate-limit.ts:14-29 | with one limit and window for a key and a clock that does not run backwards, no half-open interval as long as the window lets through more than `2 * limit - 1` of its checks |
| RateLimit.BoundIsReached | server/auth/rate-limit.ts:14-29 | and that many can be let through |
| RateLimit.SweepsChangeNoAnswer | server/auth/rate-limit.ts:35-46 | inserting sweeps anywhere in a run changes no answer |
| RateLimit.Limiter.Check | server/auth/rate-limit.ts:14-29 | answer, waiting time and bucket, in all three branches |
| RateLimit.Limiter.Sweep | server/auth/rate-limit.ts:36-46 | removes exactly the expired buckets and returns how many |
| Chunker.HardCutLosesNothing | server/import/chunker.ts:69-79 | for an overlap smaller than a piece: non-empty pieces of at most `maxChars`, each later one repeating exactly `overlap` characters and adding some; dropping the repetition gives the body back; and the number of pieces is the least whose full length reaches the end |
| Chunker.LoopEndsIff | server/import/chunker.ts:69-79 | the loop reaches a piece it stops after if and only if the body is one piece or the overlap is smaller than a piece; otherwise it pushes the first piece for ever |
| Chunker.CutCount | server/import/chunker.ts:72-77 | one piece plus the rounded-up quotient of the rest by the step |
| Chunker.HardCut | server/import/chunker.ts:69-79 | the loop computes that cut |
| Chunker.ChunkSections | server/import/chunker.ts:93-110 | each section whole or cut, numbered through in order with the total |

## Left out

- GraphStore: `first_seen`, `last_seen` and mention spans and confidences; Unicode lower- and upper-casing is ASCII; rows are sets and maps, so the order of a query is arbitrary; list limits of 1,000,000.
- Bundle: the tar and gzip container, `files/`, and a bundle without `documents.jsonl` or `domain.json`; edge weights are not part of a copy, and an import does not keep the smaller-id-first order of edges, so runs with imports do not claim it.
- BundleRoundTrip.ImportFaithfulIff: `created_at` is not part of a document row, which the backends do not take from the bundle either.
- TwoTier: the read path of the two-tier backend (pgvector first), embedding validation, and a SQLite failure inside a drain; graph tables are not replicated by the sync worker and not modelled here.
- SseCodec: bytes and `TextDecoder` (pieces are pieces of text), cancellation, and the Anthropic, Gemini and Ollama adapters, which frame in the same way.
- Gguf: the rounding of 64-bit integers to `Number` and the value of floats, which stay bit patterns; `scan` and file names.
- EmbedBatcher: when the flush thread wakes, the direct path for more than `max_batch` texts, and calls that come after `shutdown` has returned.
- Supervisor: `restoreOnStartup` runs before the first request, as `Booted` says, although the code does not wait for it; the stderr ring and the pull routes.
- RpcClient: a write that reaches the pipe in part before it fails, the end of the process, and the server's own error codes, which are part of the answer it computes.
- EngineCache: concurrent requests, two-tier storage, the limit of 1,000,000 documents, metadata beside id and text, embedding failures, and the extraction stamp, which writes a row back with the same text.
- Retriever: floating-point rounding, the order and truncation of results, and hybrid scores.
- Compressor: the sentence splitter and the sentence score are parameters; memory and re-ranking.
- RateLimit: `reset` inside a run, and different limits for one key.
- Chunker: `splitSections`; sections are given.
- Routes, dashboard, mail, the Open WebUI proxy and the Rust crates are input and output or data types only.
