# RAGX in Dafny

RAGX is a retrieval-augmented generation server. This project models the parts of
it that are state machines and algorithms in their own right, and proves what
they keep and what they compute. One Dafny module stands for one component:

| file | component |
|---|---|
| `graph_model.dfy`, `relation_model.dfy`, `reachability.dfy`, `graph_store.dfy` | the reference-counted knowledge graph and its bounded search |
| `kg_merge.dfy`, `kg_rebuild.dfy`, `kg_builder.dfy` | entity filtering, two-level merging, graph building and building again |
| `chunker.dfy` | visual split, greedy merge, coarsening, sentence overlap, assembly |
| `pipeline.dfy` | the crash-safe stage runner over its durable tables |
| `task_queue.dfy`, `stream_queue.dfy` | the in-process round-robin queue and the Redis Streams queue |
| `token_bucket.dfy` | the in-process token bucket and the two Redis scripts |
| `circuit.dfy`, `router.dfy` | the sliding-window circuit breaker and the resilient router |
| `epoch_cache.dfy` | the exact cache with epoch invalidation, under interleavings |
| `filter_sql.dfy`, `filter_values.dfy`, `sql_text.dfy` | the compiler from metadata filters to SQL, in tokens and in text |
| `fusion.dfy` | reciprocal-rank and weighted fusion |
| `ulid.dfy` | ULID encoding, decoding and order |

Each component comes in two layers. Specification functions work on immutable
values and carry the lemmas. Classes and loops follow the program's own
statements, and their postconditions tie the new state to a specification
function of the old one. Clocks, random draws, embeddings, token counts, provider
replies and other outside behaviour are parameters, so every statement holds for
all of them.

## What the code does differently from its descriptions

* `graph_nx.py` raises a `KeyError` in the middle of a batch when an entity of a
  known name carries an id that has no node (line 117). Two chunks of one batch
  that bring the same new name run into it (`KgRebuild.SameNewNameTwice`). A build
  returns normally if and only if every surviving extraction is of an accepted
  knowledge base and no two of those that are neither stored nor absorbed by a
  similar candidate normalize to one name (`KgBuilder.KGBuilder.BuildForChunks`).
  Stored state stays referentially sound either way.
* `builder.py` promises that repeated calls produce the same graph, the extractor
  returning the same again. They need not: two chunks that bring the same two new
  entities with a relation between them raise on the first call, and on the second
  go through and store the relation (`KgRebuild.SecondCallAddsRelation`). A call
  leaves the graph as it was if and only if every surviving extraction finds a
  stored namesake or a best candidate that has its document, at least its
  confidence and, for a namesake, at least its description length, and every mapped
  relation is stored with everything it could add (`KgRebuild.BuildUnchangedIff`).
  After a call that went through, that can fail in the next one only for extractions
  that similarity had absorbed and for relations (`KgRebuild.RepetitionUnchangedIff`).
* An entity stored with an empty source list is never deleted
  (`GraphModel.UnsourcedEntityIsNeverDeleted`), so the entity table refines the
  plain set of pairs along a run if and only if no operation writes a name that the
  store lacks with empty source lists alone (`GraphModel.StoredIffPairedIff`).
* Deleting a document drops relations and can leave their edges
  (`GraphModel.EdgeOutlivesRelation`). The edge of a dropped relation stays exactly
  if neither of its endpoints dies (`GraphModel.DroppedEdgeStaysIff`).
* A run of the ingest pipeline that dies between storing the chunks and their
  checkpoint stores the chunks again under new ids on replay. The replay equals an
  uninterrupted run if and only if that never happened
  (`Pipeline.ReplayEqualsUninterrupted`); each such crash adds exactly one more
  copy of every chunk and its vector (`Pipeline.ReplayCompletes`).
* The breaker's half-open state is described as a single probe. The code lets
  every query through (`Circuit.HalfOpenLetsAllThrough`), and a failed probe opens
  the key again only if the window condition holds (`Circuit.FailureOpensIff`).
* The Redis queue's description says that unacknowledged entries are reclaimed and
  dead-lettered after three attempts. There is no reclaiming code: an entry is
  delivered once by the consumer itself, so a failing handling copies it exactly
  when other clients claimed it at least twice while it was pending and the calls
  succeed (`StreamQueue.DeadLettersIff`). Otherwise a first failure leaves it
  pending for ever (`StreamQueue.FirstFailureStaysPending`).
* A filter's field name is pasted into an SQL literal and a JSON path as it is
  (vector_sqlite.py lines 165-168). The text reads back as the intended predicate
  if and only if no field outside the table's columns holds a quote or NUL
  (`SqlText.CompiledReadsBackIff`, failing at `a'b` in `SqlText.QuoteInField`). Only
  such a field puts the exclusion of the cache in doubt: for all other filters it is
  exact (`SqlText.ExclusionIsExact`).
* A field outside the columns is read as a JSON path. The path finds the row's own
  value of that name if and only if the name is not empty, has no dot and no
  bracket, does not start with a double quote and, in releases of SQLite that
  compare escaped key text, has no double quote, backslash or control character at
  all (`FilterSql.FieldIff`). For any other name a row with that very key is missed
  (`SqlText.MissedField`, such as `a.b` in `SqlText.DotInField`); the filter then
  means what it says of the values its paths find (`SqlText.QueryMeaning`).
* `eq` and `ne` compare texts, so an integer never equals a float of the same
  value: a row of page 3 does not match 3.0 (`SqlText.IntegralFloatInEq`). Among
  whole numbers `eq` is numeric equality exactly unless the value sought is an
  integral float (`FilterValues.EqOnWholeIff`).
* `contains` passes `%` and `_` on to LIKE. It means "has this substring, ASCII case
  aside" exactly for values without them (`FilterValues.ContainsIff`).
* A colon in a knowledge-base id breaks the isolation of invalidation
  (`EpochCache.ColonIdLosesEntries`); without colons it is exact
  (`EpochCache.ColonFreeDrops`).
* The raise that router.py marks as unreachable is reached exactly when
  `max_retries` is 0 and the one reply does not parse (`Router.PastLoopIff`).
* A timestamp of 2^48 or more does not survive the ULID
  (`Ulid.TimestampRoundTrip` gives the exact condition).

## Model

| member | source | states |
|---|---|---|
| GraphModel.RunRefinesPairs | ragx/plugins/graph_nx.py:98-167 | Over every run of upserts and document deletions, failing batches included, the reference lists hold exactly the (name, document) pairs that a plain pair-set machine holds |
| GraphModel.EntityLivesWhileReferenced | ragx/plugins/graph_nx.py:98-160 | When every upserted entity names a document, an entity is stored exactly while some pair has its name, and its sources are exactly the documents of its pairs |
| GraphModel.UnsourcedEntityIsNeverDeleted | ragx/plugins/graph_nx.py:147-155 | An entity with no sources survives every sequence of deletions, so the non-empty-sources condition above is needed |
| GraphModel.StoredIffPairedIff | ragx/plugins/graph_nx.py:98-167 | At every point of a run an entity is stored exactly while some pair has its name, if and only if no operation of the run writes a name that the store lacks with empty source lists alone |
| GraphModel.LandedIsPrefix | ragx/plugins/graph_nx.py:98-119 | What a batch stores is a prefix of it, all of it when the call returns normally |
| GraphModel.BatchCompletesIff | ragx/plugins/graph_nx.py:98-119 | A batch goes through exactly when each entity is of the accepted knowledge base and each entity whose name is known by then carries the id of an existing node |
| GraphModel.BatchDistils | ragx/plugins/graph_nx.py:103-116 | After a batch each name holds the distillate of everything given for it: identity of the first, all sources, highest confidence, earliest longest description, earliest non-empty vector |
| RelationModel.RunRefinesMentions | ragx/plugins/graph_nx.py:121-167 | Over every run the graph refines a plain machine of (name, document) pairs, ids and (triple, document) pairs, in which a deletion takes its document's pairs and all triples that lose an endpoint; which endpoints die is read off the plain pairs and ids |
| RelationModel.DiesWith | ragx/plugins/graph_nx.py:147-160 | An entity id dies with a document exactly when that document alone vouches for it |
| RelationModel.RelationBatchDistils | ragx/plugins/graph_nx.py:121-142 | A completed batch stores for every triple the first identity, the highest weight, the earliest longest description and all sources of what it was given |
| GraphModel.DeletionsAreOrderFree | ragx/plugins/graph_nx.py:144-167 | Deleting documents one by one equals deleting them at once on entities, relations, nodes and edges; hence deletions commute and are idempotent |
| GraphModel.UpsertEntityIntegral | ragx/plugins/graph_nx.py:98-119 | Upserting an entity keeps every relation's endpoints live and its edge present, and keeps all live ids |
| GraphModel.UpsertRelationsIntegral | ragx/plugins/graph_nx.py:121-142 | Upserting relations between live entities keeps referential integrity |
| GraphModel.DeleteIntegral | ragx/plugins/graph_nx.py:144-167 | The deletion cascade keeps integrity and removes exactly the ids that lost their last source |
| GraphModel.DroppedEdgeStaysIff | ragx/plugins/graph_nx.py:144-167 | When a deletion drops a relation, its edge stays exactly if neither endpoint dies, and then the relation lost its own last source |
| GraphModel.EdgeOutlivesRelation | ragx/plugins/graph_nx.py:144-167 | A sound graph with a document whose deletion drops a relation and leaves its edge |
| GraphStore.NetworkXGraphStore.UpsertEntities | ragx/plugins/graph_nx.py:98-119 | The loop leaves the store in the state of the specification, partial state of a failing batch included |
| GraphStore.NetworkXGraphStore.UpsertRelations | ragx/plugins/graph_nx.py:121-142 | The loop leaves the store in the state of the specification, partial state included |
| GraphStore.NetworkXGraphStore.DeleteByDoc | ragx/plugins/graph_nx.py:144-167 | The three-container cascade leaves exactly the specified state |
| GraphStore.NetworkXGraphStore.Explore | ragx/plugins/graph_nx.py:186-203 | The bounded search terminates; visited depths are least walk lengths of at most hops edges, no nearer node is missed, at most limit nodes are visited, and all within reach are visited when the limit is not hit |
| GraphStore.NetworkXGraphStore.Neighbors | ragx/plugins/graph_nx.py:181-211 | Returns exactly the stored entities among seeds and visited nodes and the relations with both ends among them |
| Reachability.LayerIsWalks | ragx/plugins/graph_nx.py:192-203 | The search's layers are what walks from an in-graph seed reach, written out node by node |
| Reachability.ExpandStep | ragx/plugins/graph_nx.py:194-203 | Expanding the head of the queue keeps the search invariant and the distance-prefix property |
| Reachability.LayersDone | ragx/plugins/graph_nx.py:192-203 | Every layer nearer than the whole queue is already visited, no later than its distance |
| Reachability.ExploredIsReachable | ragx/plugins/graph_nx.py:186-203 | Without the cutoff, a node is visited if and only if a walk of 1 to hops edges from a seed ends in it |
| Reachability.ExploredDepthIsLeast | ragx/plugins/graph_nx.py:186-203 | A recorded depth is the length of a shortest non-empty walk to the node |
| KgMerge.SurvivorsSpec | ragx/kg/merge.py:45-59 | Filtering keeps exactly the entities that pass the confidence floor and are the last of their name to do so |
| KgMerge.SurvivingRelationsSpec | ragx/kg/merge.py:45-59 | Exactly the relations between surviving names are kept |
| KgMerge.BuildCompletesIff | ragx/plugins/graph_nx.py:98-119 | A merged batch is upserted completely if and only if its knowledge bases are accepted and its new names are distinct |
| KgMerge.ChunksCompleteIff | ragx/kg/builder.py:44-82 | The entities of a build go through if and only if, over the chunks given, every surviving extraction is of an accepted knowledge base and no two that are neither stored nor absorbed by similarity normalize to one name |
| KgMerge.BuildEndsDoneIff | ragx/kg/builder.py:44-85 | The whole build, relations included, goes through under the same condition on the chunks |
| KgRebuild.SameNewNameTwice | ragx/kg/builder.py:44-85 | Two chunks that bring one novel entity: the upsert raises, and the graph it leaves lets the same chunks through |
| KgMerge.NameResolvesIff | ragx/kg/builder.py:95-107 | A relation's end resolves exactly when a merged entity of the chunk or a stored entity is spelled so |
| KgMerge.SpellingLostIff | ragx/kg/builder.py:88-107 | Over the inputs: a name that relations use resolves to nothing exactly when no surviving extraction of the chunk ends up with that spelling, its stored namesake's or its best candidate's taken into account, and no stored entity has it |
| KgMerge.BestOfIff | ragx/kg/merge.py:96-114 | Some candidate absorbs an extraction at level two exactly when some candidate is eligible |
| KgMerge.SoundAfter | ragx/plugins/graph_nx.py:98-142 | After a build, on every outcome, the ids still to be handed out are unknown to the graph |
| KgRebuild.BatchUnchangedIff | ragx/plugins/graph_nx.py:98-119 | A batch, whether or not it goes through, leaves the graph as it is exactly when the store has everything each entity reached could add |
| KgRebuild.RelationsUnchangedIff | ragx/plugins/graph_nx.py:121-142 | A batch of relations leaves the graph as it is exactly when every triple is stored with everything it could add |
| KgRebuild.BuildUnchangedIff | ragx/kg/builder.py:44-85 | Over the chunks given: a build, on every outcome, leaves the graph as it found it exactly when every surviving extraction reached is stored or absorbed with nothing to add, and every mapped relation is stored with everything it could add |
| KgRebuild.RepetitionUnchangedIff | ragx/kg/builder.py:44-85 | Building the same chunks again on the graph that a normal call left changes nothing exactly when each extraction that similarity absorbed finds a namesake or best candidate that lacks nothing of it, and each relation mapped the second time is stored with everything it could add |
| KgRebuild.SecondCallAddsRelation | ragx/kg/builder.py:44-85 | Two chunks with the same two new entities and a relation: the first call raises, the second goes through and changes the graph |
| KgMerge.BuildIntegral | ragx/kg/builder.py:44-85 | Whatever the batch, the upserted state is referentially sound, relations included when they are reached |
| KgMerge.DeletionsIntegral | ragx/plugins/graph_nx.py:144-167 | Any deletions afterwards keep it sound |
| KgBuilder.KGBuilder.FindSimilar | ragx/kg/merge.py:96-114 | The level-two loop returns the first best candidate that may absorb the extraction, none exactly when no candidate may |
| KgBuilder.KGBuilder.MergeOne | ragx/kg/merge.py:62-144 | An extraction merges by name, else by similarity, else becomes a new entity with the next fresh id |
| KgBuilder.KGBuilder.MergeEntities | ragx/kg/merge.py:62-144 | The merge loop treats every extraction so, in order, and mints ids only for new entities |
| KgBuilder.KGBuilder.BuildRelations | ragx/kg/builder.py:88-118 | Relations whose ends both resolve are mapped to ids, in order, the others dropped |
| KgBuilder.KGBuilder.Collect | ragx/kg/builder.py:44-80 | The collecting loop reads the store only, and every collected relation has endpoints among stored or collected entities |
| KgBuilder.KGBuilder.BuildForChunks | ragx/kg/builder.py:44-85 | The whole build equals upserting what was collected, relations only after all entities; it returns normally, leaves the graph unchanged, and repeats without a change exactly under the stated conditions on the chunks; it keeps integrity on every outcome and can be called again |
| Chunker.VisualSplitSpec | ragx/chunking/chunker.py:22-46 | Visual groups keep every atom in order and break exactly at hard boundaries |
| Chunker.GreedyGroupsFit | ragx/chunking/chunker.py:49-83 | For any similarities the greedy groups are the atoms in order, each one atom or within max_tokens |
| Chunker.GreedyBreaks | ragx/chunking/chunker.py:62-80 | The merge breaks before an atom exactly when the split condition holds for the group so far |
| Chunker.AheadNeedsNoMore | ragx/chunking/chunker.py:49-83 | Maximal groups that are ahead of any fitting partition need no more groups than it |
| Chunker.GreedyIsFewest | ragx/chunking/chunker.py:49-83 | With similarity out of the way and no coarsening, the merge yields the fewest groups of any contiguous partition within max_tokens, and itself fits |
| Chunker.NoEmbedderIsSimilar | ragx/chunking/chunker.py:251-255 | Without an embedder similarity never splits |
| Chunker.MergeShortSpec | ragx/chunking/chunker.py:86-97 | Coarsening keeps atoms and order, leaves no short group after the first, and drops one boundary per short group |
| Chunker.CoarseningOverflows | ragx/chunking/chunker.py:86-97 | A short group joins its predecessor even when the two together exceed max_tokens, so the limit holds only before coarsening |
| Chunker.TailIsLongest | ragx/chunking/chunker.py:108-132 | The overlap tail is the longest sentence suffix of the group within the token target, and the only one |
| Chunker.NonTextsThenTexts | ragx/chunking/chunker.py:236-243 | Inside a visual group only the first atom can be other than text, so taking those first keeps the order |
| Chunker.OverlapAddsNothing | ragx/chunking/chunker.py:135-144 | Overlap copies aside, overlapped groups have the ids of the groups |
| Chunker.AssembledIds | ragx/chunking/chunker.py:192-215 | Chunks carry the ids of their parts in order, and assembly succeeds exactly when no part is over the hard cap |
| Chunker.ChunksCarryAtoms | ragx/chunking/chunker.py:225-249 | End to end, for every input, when no chunk is too large: without their leading overlap copies the chunks carry exactly the input atoms, once each, in reading order |
| Chunker.ChunksKeepIds | ragx/chunking/chunker.py:225-249 | Telling copies by id alone gives back the input ids exactly when no input id ends in the copies' suffix |
| Chunker.SplitLoop | ragx/chunking/chunker.py:33-46 | The loop computes the visual groups |
| Chunker.Chunker.MergeLoop | ragx/chunking/chunker.py:49-83 | The loop with its running token count computes the merged groups |
| Chunker.Chunker.CoarsenLoop | ragx/chunking/chunker.py:86-97 | The loop computes the coarsened groups |
| Chunker.Chunker.TailLoop | ragx/chunking/chunker.py:108-132 | The nested loops over sentences from the end return the longest tail |
| Chunker.Chunker.OverlapLoop | ragx/chunking/chunker.py:135-144 | Every group but the first gets the tail of its predecessor |
| Chunker.Chunker.Chunk | ragx/chunking/chunker.py:225-255 | The whole chunker returns the assembled parts in order or the first size error, and carries the input atoms |
| Pipeline.StageSteady | ragx/ingestion/pipeline.py:103-136 | Through every attempt of a stage, every disk a crash could leave satisfies the invariant, and success leaves the checkpoint |
| Pipeline.RunSteady | ragx/ingestion/pipeline.py:161-177 | Every crash point of a whole run is covered, and a successful run leaves all atoms, the counted copies of each chunk, exactly their vector rows and status done |
| Pipeline.UpsertedSteady | ragx/plugins/vector_sqlite.py:224-261 | An upsert that stops after any number of rows keeps the invariant |
| Pipeline.ReplayCompletes | ragx/ingestion/pipeline.py:103-177 | After any history of crashed, failed or finished runs, a run to success stores each chunk once plus once per crash between storing chunks and their checkpoint |
| Pipeline.ReplayEqualsUninterrupted | ragx/ingestion/pipeline.py:103-177 | Such a replay stores the same atoms, chunks and rows as an uninterrupted run, up to chunk ids, if and only if no such crash happened or there is nothing to chunk |
| Pipeline.FifthCommitIsGap | ragx/ingestion/pipeline.py:230-242 | Dying after the fifth commit of a run in which nothing fails is such a crash |
| Pipeline.NeverAgain | ragx/ingestion/pipeline.py:110-113 | A stage with a non-empty checkpoint is never called again by any later run, and its checkpoint never changes |
| Pipeline.RetrySpec | ragx/ingestion/pipeline.py:72-133 | A stage is called at most max(1, max_attempts - attempts) times, again only after retryable failures; attempts, error and failed status are saved |
| Pipeline.Stores.SaveAtoms | ragx/ingestion/store.py:284-304 | The row loop and its one commit are one durable step |
| Pipeline.Stores.SaveChunks | ragx/ingestion/store.py:327-348 | The row loop and its one commit are one durable step |
| Pipeline.Stores.PutRow | ragx/plugins/vector_sqlite.py:224-261 | One upserted vector row is one durable step; a known row keeps its atom ids |
| Pipeline.IngestionPipeline.Perform | ragx/ingestion/pipeline.py:186-259 | One call of a stage function has the specified effects, also when it raises midway |
| Pipeline.IngestionPipeline.RunStage | ragx/ingestion/pipeline.py:103-136 | The recursive wrapper computes the specified stage run and terminates on the attempts left |
| Pipeline.IngestionPipeline.Run | ragx/ingestion/pipeline.py:161-177 | The whole run computes the specified run, its commits in order |
| TaskQueue.DeliveryIsFifo | ragx/ingestion/queue.py:43-80 | Per knowledge base, deliveries followed by what waits are the enqueued tasks in order |
| TaskQueue.BoundedBypass | ragx/ingestion/queue.py:55-80 | From every state the queue can reach: until the head task of a knowledge base is delivered, every other one is served at most twice, at most once if this one is still ahead in the pass |
| TaskQueue.ServedInTurn | ragx/ingestion/queue.py:55-80 | From every state the queue can reach, the head task is delivered by exactly the worker turn predicted for it |
| TaskQueue.InProcessQueue.Enqueue | ragx/ingestion/queue.py:43-45 | Appends to the queue of its knowledge base, which joins the rotation when new |
| TaskQueue.InProcessQueue.Round | ragx/ingestion/queue.py:55-80 | One pass of the worker loop, with arrivals in between, is the run of its turns; processed is set exactly when something was delivered |
| StreamQueue.EveryEntryInOnePlace | ragx/ingestion/queue_redis.py:162-247 | On every run each entry is in exactly one of unread, pending and acknowledged |
| StreamQueue.AckedIsSettled | ragx/ingestion/queue_redis.py:194-247 | An acknowledged entry was processed, had no task id, or was copied to the dead letters |
| StreamQueue.LeavesPendingOnlySettled | ragx/ingestion/queue_redis.py:194-247 | The step that takes an entry off the pending list has settled it |
| StreamQueue.DeadLettersIff | ragx/ingestion/queue_redis.py:194-247 | A handling that does not end in an acknowledgement copies the entry exactly when the delivery count can be read, the copy goes through, and other clients claimed the entry at least twice while it was pending |
| StreamQueue.DeadLetterNeedsClaims | ragx/ingestion/queue_redis.py:218-247 | On every run a copy exists exactly when some handling dead-lettered the entry, and never without two claims made while it was pending |
| StreamQueue.FailedEntryStaysPending | ragx/ingestion/queue_redis.py:162-247 | An entry that failed below the budget stays pending on every continuation |
| StreamQueue.FirstFailureStaysPending | ragx/ingestion/queue_redis.py:194-247 | A failed first handling leaves the entry pending on every continuation, unless it was claimed twice while pending and every call of the move succeeds |
| StreamQueue.RedisStreamsQueue.HandleOne | ragx/ingestion/queue_redis.py:194-216 | Handling an entry takes exactly the step of the state machine |
| StreamQueue.RedisStreamsQueue.RetryOrDeadLetter | ragx/ingestion/queue_redis.py:218-247 | Leaves the entry pending or copies and acknowledges it, as specified |
| StreamQueue.RedisStreamsQueue.Work | ragx/ingestion/queue_redis.py:162-192 | The worker loop is a run of the state machine |
| TokenBucket.AdmissionBound | ragx/api/middleware/ratelimit.py:98-152 | Over any run and window, tokens admitted and charged are at most the capacity plus rate times the window |
| TokenBucket.PaymentsLedger | ragx/api/middleware/ratelimit.py:110-128 | Conservation: what each call takes and leaves is exactly the level before it and the refill since, cut to the capacity |
| TokenBucket.LevelWithinCapacity | ragx/api/middleware/ratelimit.py:110-128 | The level stays between zero and the capacity |
| TokenBucket.WaitIsTight | ragx/api/middleware/ratelimit.py:116-123 | A denied request is admitted at exactly the times from the returned wait on, if it fits the capacity at all |
| TokenBucket.ExpiryUnobservable | ragx/api/middleware/ratelimit.py:44-95 | A key old enough to expire would have refilled to capacity |
| TokenBucket.ScriptRefinesBucket | ragx/api/middleware/ratelimit.py:44-128 | The Redis scripts take the decisions of the in-process bucket on every run, waits and key expiry included |
| TokenBucket.KeysAreIndependent | ragx/api/middleware/ratelimit.py:131-152 | What a key goes through in a run over many keys is the run of its own calls |
| TokenBucket.InProcessBucket.AcquireAt | ragx/api/middleware/ratelimit.py:110-123 | Refills and decides as specified |
| TokenBucket.InProcessRateLimiter.AcquireAt | ragx/api/middleware/ratelimit.py:140-149 | Only the key's own bucket changes, created when new |
| TokenBucket.RedisBuckets.AcquireScript | ragx/api/middleware/ratelimit.py:44-72 | The admission script's hash update and decision |
| TokenBucket.RedisBuckets.AddScript | ragx/api/middleware/ratelimit.py:75-95 | The post-charge script's hash update |
| Circuit.PrunedIsFilter | ragx/llm/circuit.py:65-70 | Dropping from the head of the deque is filtering by the window |
| Circuit.RunTracks | ragx/llm/circuit.py:36-81 | On every run the head-pruned deque is the full sample history filtered to exactly the window of the last prune |
| Circuit.FailureOpensIff | ragx/llm/circuit.py:55-81 | After a failure the key is open exactly when it was or the windowed history has enough samples and failure share |
| Circuit.OpenRefuses | ragx/llm/circuit.py:36-48 | Once tripped, every query before the cool-down ends is refused |
| Circuit.ClosesThroughHalfOpen | ragx/llm/circuit.py:36-53 | Open reaches closed only through half-open and a success recorded there |
| Circuit.HalfOpenLetsAllThrough | ragx/llm/circuit.py:36-48 | In half-open every query passes until something is recorded |
| Circuit.CircuitBreaker.IsOpen | ragx/llm/circuit.py:36-48 | Answers and changes state as specified, other keys untouched |
| Circuit.CircuitBreaker.RecordSuccess | ragx/llm/circuit.py:50-70 | Appends, prunes and closes as specified, other keys untouched |
| Circuit.CircuitBreaker.RecordFailure | ragx/llm/circuit.py:55-81 | Appends, prunes and trips as specified, other keys untouched |
| Router.RetrySpec | ragx/llm/router.py:240-264 | At most max_retries + 1 calls, ended by the first success or non-retryable failure, exhausted only after all of them |
| Router.PastLoopIff | ragx/llm/router.py:240-264 | The raise behind the retry loop is reached exactly when no retry is allowed and the one reply does not parse |
| Router.FirstSuccessOrOpen | ragx/llm/router.py:92-143 | The answer is that of the first target whose retries succeed; 6002 exactly when an open target comes first, else 6001; one failure recorded per earlier target |
| Router.StrategyAvoidsOpen | ragx/llm/router.py:198-237 | With distinct candidates, a sequential call by weight or price never ends in 6002, and ends in 6001 when every candidate is open |
| Router.SpendBounded | ragx/llm/router.py:299-353 | Sequential calls keep a knowledge base's spend below its cap plus the dearest call |
| Router.DrawnHasWeight | ragx/llm/router.py:198-219 | A positive draw never picks a target of weight zero |
| Router.ResilientRouter.CallWithRetry | ragx/llm/router.py:240-264 | The retry loop returns the specified verdict, records one success and one cost exactly when it answers |
| Router.ResilientRouter.TryTargets | ragx/llm/router.py:92-143 | The fallback loop is the specified journey over the targets, breaker marks included |
| Router.ResilientRouter.Chat | ragx/llm/router.py:76-143 | The budget gate comes first and leaves everything untouched when it refuses |
| Router.ResilientRouter.WeightedTargets | ragx/llm/router.py:198-219 | The drawn target first, the rest of the non-open pool behind it in order |
| Router.ResilientRouter.LeastCostTargets | ragx/llm/router.py:221-237 | The non-open targets from cheapest to dearest, ties in order |
| Router.ResilientRouter.ChatBy | ragx/llm/router.py:76-143 | A call by weight or price within its budget, candidates distinct, ends in an answer or 6001, and records one cost exactly with an answer |
| EpochCache.FullKeyInjective | ragx/plugins/cache_memory.py:43-45 | Keys agree only for the same knowledge base, epoch and digest |
| EpochCache.DroppedIff | ragx/plugins/cache_memory.py:112-127 | Exactly which entries an invalidation drops, for any ids |
| EpochCache.ColonFreeDrops | ragx/plugins/cache_memory.py:112-127 | For colon-free ids it drops its own knowledge base's other epochs and nothing else |
| EpochCache.ColonIdLosesEntries | ragx/plugins/cache_memory.py:112-127 | With a colon in the id another knowledge base loses entries |
| EpochCache.NoStaleAnswer | ragx/llm/semantic_cache.py:51-66 | Under every interleaving, an answer comes from an ended, unexpired store of the same knowledge base and digest that read its epoch after every invalidation the lookup read its epoch after |
| EpochCache.StoredIsFound | ragx/llm/semantic_cache.py:102-125 | A finished store is found by later lookups until it expires or its knowledge base is invalidated |
| EpochCache.InMemoryExactCache.Get | ragx/plugins/cache_memory.py:47-59 | Returns the unexpired entry and drops an expired one |
| EpochCache.InMemoryExactCache.Set | ragx/plugins/cache_memory.py:61-78 | Stores under the epoch's key with its expiry |
| EpochCache.InMemoryExactCache.InvalidateKb | ragx/plugins/cache_memory.py:112-127 | Raises the epoch and drops exactly the stale keys |
| EpochCache.SemanticCache.LookupReadsEpoch | ragx/llm/semantic_cache.py:59-66 | The first step of a lookup remembers the epoch it read |
| EpochCache.SemanticCache.StoreReadsEpoch | ragx/llm/semantic_cache.py:116-123 | The first step of a store remembers the epoch it read |
| EpochCache.SemanticCache.LookupGets | ragx/llm/semantic_cache.py:59-66 | The second step of a lookup uses the epoch read in the first |
| EpochCache.SemanticCache.StoreSets | ragx/llm/semantic_cache.py:116-123 | The second step of a store uses the epoch read in the first |
| FilterSql.PathIff | ragx/plugins/vector_sqlite.py:165-168 | The JSON path of a field is that one label exactly when the name is not empty, has no dot or bracket and no leading double quote |
| FilterSql.FieldIff | ragx/plugins/vector_sqlite.py:165-168 | The database reads a field's own value in every row exactly when the field is a column, or one label that a release comparing escaped key text finds as it stands |
| FilterSql.ClauseMeaning | ragx/plugins/vector_sqlite.py:165-191 | A clause takes exactly its own parameters, can be evaluated exactly when its path is well formed, and means what the clause says of the value the path finds, in three-valued logic |
| FilterValues.ContainsIff | ragx/plugins/vector_sqlite.py:187-188 | contains means having the substring, ASCII case aside, exactly for values without the wildcards of LIKE |
| FilterValues.NumberTexts | ragx/plugins/vector_sqlite.py:175-178 | eq holds between two numbers exactly when both are whole and equal, or both are floats of one text |
| FilterValues.EqOnWholeIff | ragx/plugins/vector_sqlite.py:175-178 | On whole numbers eq with a number is numeric equality exactly unless that number is an integral float |
| FilterValues.EqOnNumbersIff | ragx/plugins/vector_sqlite.py:175-178 | On all numbers it is numeric equality exactly for a float that is not integral and shares its text with no other |
| FilterSql.SqlInSpec | ragx/plugins/vector_sqlite.py:180-184 | The IN list is true exactly when some member equals the value, unknown for a null value and a non-empty list |
| FilterSql.TokensMeaning | ragx/plugins/vector_sqlite.py:193-217 | For every filter the tokens of the predicate parse as a whole, and taking parameters left to right gives the meaning of the and-group and the or-group over the values that columns and paths find, with none left over, unless a path is malformed |
| SqlText.ReadsBackIff | ragx/plugins/vector_sqlite.py:165-217 | SQL text, quotes and all, reads back as the tokens it spells exactly when no JSON path in it holds a quote or NUL |
| SqlText.CompiledReadsBackIff | ragx/plugins/vector_sqlite.py:165-217 | A compiled filter's text reads back as the intended predicate exactly when no field outside the columns holds a quote or NUL |
| SqlText.QuoteInField | ragx/plugins/vector_sqlite.py:165-168 | A field with a quote: the text does not read back as the predicate that was meant |
| SqlText.MissedField | ragx/plugins/vector_sqlite.py:165-168 | A field that is not found under its own name: the row that has that very key and value is not returned |
| SqlText.DotInField | ragx/plugins/vector_sqlite.py:165-168 | Such as a field with a dot |
| SqlText.QueryMeaning | ragx/plugins/vector_sqlite.py:193-217 | For every filter whose text reads back, the query text has the three-valued meaning of the filter over the values that columns and paths find, with no parameter left over; a malformed path stops it |
| SqlText.CompiledMeaning | ragx/plugins/vector_sqlite.py:193-217 | Where every field is a column or found under its own name, that is the meaning over the fields' own values |
| SqlText.IntegralFloatInEq | ragx/plugins/vector_sqlite.py:175-178 | A row of page 3 does not match eq 3.0 and matches ne 3.0 |
| SqlText.SelectsIff | ragx/plugins/vector_sqlite.py:219-221 | For filters with such fields a row is returned exactly when the filter is true of it |
| FilterSql.CompilesIff | ragx/plugins/vector_sqlite.py:170-217 | A filter compiles exactly when all its operators are supported |
| SqlText.KeywordMeaning | ragx/plugins/vector_sqlite.py:297-311 | For every filter whose text reads back, in a keyword search the predicate stays one conjunct beside the match, whatever its value |
| SqlText.ExclusionIsExact | ragx/retrieval/pipeline.py:116-137 | For every filter without a quote or NUL in a field outside the columns, with the cache excluded a row is returned exactly when it is without and it is not of the cache document |
| SqlText.SQLiteVectorStore.ClauseGroup | ragx/plugins/vector_sqlite.py:193-202 | The loop joins the clauses' text, field names spelled as given, and their parameters in order |
| SqlText.SQLiteVectorStore.Predicate | ragx/plugins/vector_sqlite.py:204-217 | The text of the two groups is built and joined as specified, for every field name |
| Ulid.TimestampRoundTrip | ragx/core/ids.py:33-63 | Decoding gives the timestamp modulo 2^48, hence the timestamp exactly when it fits |
| Ulid.NumberOfDigits | ragx/core/ids.py:33-63 | Reading digits back gives the value modulo their range |
| Ulid.UlidOrder | ragx/core/ids.py:33-44 | String order of ULIDs is numeric order of their 128-bit values |
| Ulid.LaterSortsLater | ragx/core/ids.py:33-44 | A later millisecond always sorts later |
| Ulid.Generate | ragx/core/ids.py:33-44 | The digit loop produces the 26 digits of the value |
| Ulid.DecodeTimestamp | ragx/core/ids.py:54-63 | The decode loop returns the low 48 bits, None for a character outside the alphabet |
| Fusion.RawIsTotal | ragx/retrieval/hybrid.py:131-155 | A raw score is the sum of weight over k plus rank over all occurrences on all routes |
| Fusion.RouteOrderIrrelevant | ragx/retrieval/hybrid.py:131-155 | Raw scores do not depend on the order of the routes |
| Fusion.BetterRankNotLower | ragx/retrieval/hybrid.py:131-155 | A better rank never lowers a raw score, for weights that are not negative |
| Fusion.FusedScores | ragx/retrieval/hybrid.py:146-155 | Scaled scores lie in 0..1 and keep the raw order |
| Fusion.FusedExtremes | ragx/retrieval/hybrid.py:146-155 | When raw scores differ, some hit scores 0 and some scores 1 |
| Fusion.FirstSeenSpec | ragx/retrieval/hybrid.py:131-155 | One hit per distinct chunk id |
| Fusion.RankedIsFused | ragx/retrieval/hybrid.py:131-187 | The three dictionaries filled share by share give each chunk its exact sources, latest chunk and raw sum |
| Fusion.RrfFuse | ragx/retrieval/hybrid.py:131-155 | The fusion loop yields the fused hits in first-seen order |
| Fusion.WeightedFuse | ragx/retrieval/hybrid.py:157-187 | The weighted fusion loop yields the fused hits in first-seen order |

## Left out

- Source document lists of entities and relations are modelled as sets; their order and duplicates are not kept.
- Graph node attributes, entity metadata, pickle persistence, locks and deep copies of the graph store; its method bodies are atomic.
- Iteration order of dictionaries is arbitrary where a result does not depend on it.
- Topics, community detection and the ranking of `match_entities`; the near-neighbour lookup of the merge is a parameter.
- Extraction, embedding, cosine, token counting, sentence splitting and chunk text rendering are parameters.
- Bounding boxes, content hashes and metadata of atoms and chunks.
- An embedder that returns fewer or more vectors than texts; the chunker and the embed stage rely on one per text.
- `delete_chunk_from_graph` and `GraphChunkResolver.resolve_entities`: they would only add easy members.
- The VLM and graph stages of the pipeline (both flags off), backoff delays, metrics and time stamps; one task and its document are modelled, rows of other documents are not.
- Pipeline.ReplayCompletes: the embedder works text by text, the parser and chunker are deterministic apart from chunk ids, and a store call takes effect completely or the process dies; a database error that leaves half a transaction open is not modelled.
- Two clock readings at the first use of a bucket are one; the fail-open behaviour when Redis is down; rounding of floating point throughout.
- The router's semantic cache path, semaphores, `structured`, provider resolution errors and unknown strategies.
- The vector tier of the semantic cache, `RedisCache` epochs and `fast_only`: the staleness statements are about the in-memory exact tier.
- MAXLEN trimming and consumer cancellation in the Redis queue; the coordinator's discovery of streams.
- What the database does with text that does not read back as a compiled predicate, because a field holds a quote or NUL; a malformed JSON path is taken to stop the query, and an escaped character in a label between double quotes stands for itself.
- Integers beyond 64 bits, infinities and NaN in filters and rows; a float's text is a parameter with a decimal point in it.
- Filter operator names are an enumeration with one value for everything unsupported; a list bound to an operator other than `in` is not modelled.
- Upper-casing beyond ASCII in ULID decoding.
- HTTP routes, middleware shells, streaming, foreign services, evaluation, settings and audit.
