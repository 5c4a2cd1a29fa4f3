# Agent Drive, verified

A Dafny model of the parts of Agent Drive that decide what ends up stored and what is found again:
the ingestion of an uploaded file, the queue that feeds it, the chunkers, the ranking of search
results, and the OAuth login chain. Each part is written in the form the program has: code that
changes things step by step is a method with its loops, or a class with its fields, and is proved
against a specification function; the properties are lemmas about that function. Nothing was
executed: every statement below is a proof obligation that the verifier discharges for all inputs.

`dafny verify dfyconfig.toml` checks the project.

## The parts

**Ingestion** (`Rows`, `Summarizing`, `Enriching`, `Embedding`, `Ingest`, `Steps`, `Guarantees`,
`Stages`, `Progress`, `Refinement`, `Resume`). A run of `process_file` is described by the list of states it
commits. A session holds the committed state, the uncommitted one, and the history of committed
states; since only a commit changes the committed state, a run that is cut between any two of its
steps leaves behind the last state of a prefix of that list. Cuts are a crash, a raised exception
(rollback, FAILED, one more retry) and the worker's timeout (rollback, FAILED). A history is any
sequence of such runs and of re-queueings, so it covers more than the queue allows. The chunker, the
summarizer, the enricher, the question generator, the tokenizer and the embedder are arbitrary
functions of their inputs.

Two arguments are made about these runs. What holds in every reachable state, whatever the services
answer and in whatever order rows come back in each run, follows from single commits: `Steps` shows
that every commit of a run from any state with its phases in order keeps them in order, changes each
batch by one of a few steps, and leaves no more to do, and `Guarantees` draws the conclusions over
histories. That a resumed run leaves what a single run would have left goes through a walk over
*points*: a point holds the stage of each batch, from 0 (chunked) to 6 (embedded), and the columns of
the file row, and no data; `Refinement.RunRefines` shows that the states a run commits are exactly
the states at the points of the walk.

The hypotheses are explicit. Every result over histories assumes that each run reads every row once,
in some order (`Rows.Readable`). *Order of parents*: parents written in one transaction carry the same
`created_at`, so the order in which they come back is an assumption about the database. Which alias
and prefix belongs to which chunk needs the order of insertion (`Rows.InsertionOrder`);
`Enriching.MatchedByPosition` gives the exact condition under which the match by position is right,
and `Enriching.SwappedParentsSwapPrefixes` a case where it is not. *The same run twice*: what a
resumed run restores needs the services to answer alike and rows to come back in the same order in
every run (`Refinement.SameReads`); aliases, which are read without an ORDER BY, may come back in
another order if the embedder lets no question change the vector of another one. *The embedder*: it
may answer anything. A row is left without a vector exactly if the answer to its slice is too short
and it had none before (`Embedding.ChunkVectorsExactly`, `Embedding.AliasVectorsExactly`), and the
batch is marked COMPLETED all the same (`Guarantees.CompletedVectorsExactly`,
`Guarantees.NoVectorsStillComplete`).

`completed_batches` is committed on its own after the loop of phase 4. It never exceeds the number of
embedded batches, but a run cut just before that commit leaves it behind for good
(`Guarantees.CountExactly`, `Resume.CountCanStayStale`), so it is not part of what a resumed run
restores.

**Queue** (`IngestQueue`). The steps of one server process: uploads, deletion, workers, shutdown and
the reaper at start-up, in any interleaving. `complete_upload` is two steps, its commit and, once the
record is read again, the enqueueing; an error between them leaves a PENDING file that nothing will
process. So does an error when a worker reads the status, which also ends that worker for good. Such
files are *lost* until the next start-up, and a PENDING file of a running server is out of reach
exactly if one of these steps lost it since the last shutdown (`IngestQueue.StrandsExactly`). The check and the
status change of `complete_upload` are one step: two overlapping calls for the same file could
otherwise both pass the check and both enqueue it.

**Chunking** (`Packing`, `Windows`, `Hierarchy`, `Text`, `Fences`, `Markdown`). The token count is
an arbitrary function, and window bounds are stated on the sums that the code keeps. The merged tail
repeats its overlap, so the last child need not be one contiguous window: it holds the pieces of two
windows, and `Hierarchy.Covers` says for every child which characters its pieces repeat and which they
add. A placeholder text in a markdown body can be mistaken for a placeholder; `Fences.NoStray` is the
exact condition under which fenced blocks come back (`Fences.SectionsExactly`).

**Search** (`StableSort`, `SearchResults`, `Fusion`, `VectorMerge`, `Retrieval`). Scores are real numbers.
`list.sort(reverse=True)` keeps ties in their order, and dictionaries keep insertion order.

**Login chain** (`OAuth`). The dictionaries of the provider as a state machine, after sections 4.1.2,
4.1.3 and 6 of RFC 6749. `handle_callback` is two steps, because it pops the login before it waits.
Random tokens and keys are assumed never to repeat.

## Model

| member | source | states |
|---|---|---|
| Ingest.Phase1Chunking | src/agentdrive/core/pipeline/ingest.py:148-213 | the batch, its parents and its chunks become visible in one commit, numbered from 0 on across groups and counted, or the file is FAILED when there is no chunk |
| Ingest.ChunkedBatchIs | src/agentdrive/core/pipeline/ingest.py:180-205 | what phase 1 stores, field by field: row j has the content, prefix, tokens and content type of child j of the flattened groups and index j, each child stands under the row of its group, and each parent row has its group's content and tokens |
| Ingest.NothingYielded | src/agentdrive/core/pipeline/ingest.py:159-165 | the file is FAILED exactly if the groups hold no child |
| Ingest.Phase2Summarization | src/agentdrive/core/pipeline/ingest.py:262-292 | one commit, which adds the summary of all parents as they are read back |
| Ingest.ParentsAre | src/agentdrive/core/pipeline/ingest.py:266-271 | the parents summarized are those of all batches, batch by batch |
| Ingest.EnrichOneBatch | src/agentdrive/core/pipeline/ingest.py:300-355 | two commits for a batch that is not yet enriched: PROCESSING, then prefixes, aliases and COMPLETED together; none for one that is |
| Ingest.Phase3Enrichment | src/agentdrive/core/pipeline/ingest.py:295-357 | the commits of all batches in order, for any number of batches |
| Ingest.EmbedOneBatch | src/agentdrive/core/pipeline/ingest.py:363-374 | PROCESSING, the chunk vectors, the alias vectors and COMPLETED are commits of their own, in this order; none for a batch already embedded |
| Ingest.Phase4Embedding | src/agentdrive/core/pipeline/ingest.py:360-381 | the commits of all batches in order, and then the count in a commit of its own |
| Ingest.ProcessFile | src/agentdrive/core/pipeline/ingest.py:35-92 | from any committed state in which each chunk has its parent in its batch, as in every state of every history (`Guarantees.HistoryHasParents`), the session commits exactly the states of the specification, in order, and leaves nothing uncommitted |
| Ingest.HandleError | src/agentdrive/core/pipeline/ingest.py:94-103 | uncommitted changes are dropped; the status is FAILED, one more retry is counted, and every other column and row is as last committed |
| Ingest.HandleInWorker | src/agentdrive/core/pipeline/queue.py:47-70 | after a timeout, or an exception that got out, the status is FAILED and every other column and row, the retries too, is as last committed |
| Ingest.AttemptLeaves | src/agentdrive/core/pipeline/ingest.py:94-103 | a run that ends after k commits leaves the k-th, and after a raise or a timeout its status FAILED and nothing else changed, but for a retry when it raised behind its first commit |
| Rows.Session.Commit | src/agentdrive/core/pipeline/ingest.py:208 | the working state becomes the committed one and the end of the history |
| Rows.Session.Rollback | src/agentdrive/core/pipeline/ingest.py:96 | the working state is again the last committed one |
| Refinement.RunRefines | src/agentdrive/core/pipeline/ingest.py:35-92 | at every valid point, for a run with the services and reading orders of the plan (`SameReads`), the states that the run commits are those at the points of the walk, so the data depend on nothing but how far the file has come |
| Progress.RunIsPath | src/agentdrive/core/pipeline/ingest.py:48-92 | each commit of a run leads to a valid point that is not behind the one before, and an uncut run ends finished, or FAILED if there is no chunk; the flags read once at the start skip nothing that is still to be done |
| Resume.HistoryPoint | src/agentdrive/core/pipeline/ingest.py:35-103 | if all runs have the same services and reading orders: after any history of cut runs the database is the one at some valid point, at least as far as the start |
| Resume.ResumeEquivalence | src/agentdrive/core/pipeline/ingest.py:35-103 | for services that answer alike, whatever they answer, and rows read in the same order each time: after any sequence of runs, each cut at any step and in any way, one uncut run leaves the same batches, parents, chunks, prefixes, aliases, vectors, summary, status and phase as a single uncut run from the start; if the embedder treats questions independently, aliases may be read in any order each time |
| Steps.ChunkedIsFresh | src/agentdrive/core/pipeline/ingest.py:167-207 | the rows of phase 1 are numbered 0 to n-1, parent by parent, every chunk has its parent in the batch, and `chunk_count` is n |
| Steps.RunTrail | src/agentdrive/core/pipeline/ingest.py:35-92 | from every state with its phases in order, for any services and reading orders: each commit of a run keeps the phases in order, changes each batch by one of the steps of its life, under the phase that the file row names, and an uncut run ends READY with every batch enriched and embedded, or FAILED if it had no batch and the chunker found nothing |
| Steps.CountsAre | src/agentdrive/core/pipeline/ingest.py:376-379 | the count and the measures are the numbers of batches that are embedded, not embedded and not enriched |
| Guarantees.PhasesStayInOrder | src/agentdrive/core/pipeline/ingest.py:48-92 | in every state of every history, whatever each run's services answer and in whatever order it reads: batches are chunked and counted, enrichment has begun only with a summary, embedding only when every batch is enriched, READY only when all is complete and no phase is named, and `completed_batches` is at most the number of embedded batches |
| Guarantees.HistoryHasParents | src/agentdrive/core/pipeline/ingest.py:167-207 | in every state of every history each chunk has its parent in its batch, which is what the methods of a run require of the state they resume |
| Guarantees.EmbeddedStaysIndexed | src/agentdrive/core/pipeline/embedding/pipeline.py:28-50 | for any embedder, whenever a batch's embedding is COMPLETED there is one run of the history such that every chunk and alias as it now is has the vector at its place in that run's answer to its slice, if that answer is long enough |
| Guarantees.EveryTextIsIndexed | src/agentdrive/core/pipeline/embedding/pipeline.py:28-50 | if the embedder answers each request with at least one vector per text, every chunk of a COMPLETED batch has the vector at its place in the answer to the request in which each chunk of its slice of 64 is sent as its current prefix, a line break and its content, or as its content alone if it has no prefix, and every alias has a vector |
| Guarantees.EveryTextHasItsVector | src/agentdrive/core/pipeline/embedding/pipeline.py:28-50 | if it also treats each text on its own, the vector of every chunk of a COMPLETED batch is that of prefix, line break and content, or of the content if there is no prefix, and the short vector is its first 256 places |
| Guarantees.EveryQuestionIsIndexed | src/agentdrive/core/pipeline/embedding/pipeline.py:73-88 | if it also treats each question on its own, every alias of a COMPLETED batch has the vector of its own question, in whatever order aliases were read |
| Guarantees.CompletedVectorsExactly | src/agentdrive/core/pipeline/embedding/pipeline.py:37-48 | a batch, whatever vectors it kept from a run that was cut, is COMPLETED in any case, and all its rows have vectors if and only if each had one before or is reached by the answer to its slice |
| Guarantees.FirstVectorsExactly | src/agentdrive/core/pipeline/embedding/pipeline.py:37-48 | if no row has a vector yet, that is so if and only if no slice of chunks or aliases is answered with fewer vectors than texts |
| Guarantees.NoVectorsStillComplete | src/agentdrive/core/pipeline/embedding/pipeline.py:37-48 | so with an embedder that returns no vectors the batch is marked COMPLETED although its chunks have none |
| Guarantees.AliasesAreInsertedOnce | src/agentdrive/core/pipeline/ingest.py:304-355 | in whatever order parents come back in each run and whatever the services answer: the aliases of an enriched batch, vectors aside, are exactly what one run of the history inserted, once, and a batch that is not enriched has none |
| Guarantees.EnrichmentHappensOnce | src/agentdrive/core/pipeline/ingest.py:304-355 | with parents in insertion order, over all cut and resumed runs: every column of a row but prefix and vectors is as chunked; once enriched, the aliases are the questions about the table chunks, each once and with its own chunk, and each prefix is the service's answer for its own chunk, or the prefix it was chunked with if the answer was empty; before the commit nothing of this is stored |
| Guarantees.EnrichmentFromChunker | src/agentdrive/core/pipeline/ingest.py:193-341 | the same over the chunker's answer: row j is child j of the flattened groups, and its prefix is the child's own until the batch is enriched, and then the answer about the child, or still its own |
| Guarantees.SilentServiceKeepsPrefixes | src/agentdrive/core/pipeline/enrichment/contextual.py:109-111 | a service that always answers nothing leaves every prefix of every reachable state as the chunker made it |
| Guarantees.MeasureNeverGrows | src/agentdrive/core/pipeline/ingest.py:61-92 | the lexicographic measure (no batch, no summary, batches not enriched, batches not embedded) does not grow over a run, cut or not, nor over a re-queueing |
| Guarantees.MeasureFallsAlongRun | src/agentdrive/core/pipeline/ingest.py:61-92 | nor does it grow from any commit of a run to a later one |
| Guarantees.UncutRunFinishes | src/agentdrive/core/pipeline/ingest.py:88-91 | from every reachable state an uncut run brings the measure to zero and the file to READY, unless it has no batch and the chunker finds nothing, and then to FAILED without a batch |
| Guarantees.CountExactly | src/agentdrive/core/pipeline/ingest.py:57-91 | an uncut run that ends READY leaves `completed_batches` equal to the number of embedded batches if and only if not every batch was embedded when it began, or the count was right already |
| Resume.CountCanStayStale | src/agentdrive/core/pipeline/ingest.py:376-379 | for every file with a chunk: a run cut before the count is committed leads, when resumed, to READY with a count of zero |
| Enriching.MatchedByPosition | src/agentdrive/core/pipeline/ingest.py:331-341 | flattening the groups read back gives the `chunk_index` order if and only if the parents that have chunks come back in the order in which they were inserted |
| Enriching.SlotsAreAllChunks | src/agentdrive/core/pipeline/ingest.py:384-427 | in whatever order the parents come back, each chunk of the batch is read exactly once, so the zip leaves no row out |
| Enriching.EnrichedProperly | src/agentdrive/core/pipeline/ingest.py:311-354 | with parents in insertion order every prefix is computed from the row's own content, old prefix and neighbours, and every alias belongs to the chunk whose table it asks about |
| Enriching.SwappedParentsSwapPrefixes | src/agentdrive/core/pipeline/ingest.py:339-341 | two parents read back the other way round: each chunk gets the prefix of the other |
| Enriching.AliasesBelong | src/agentdrive/core/pipeline/enrichment/table_questions.py:15-29 | each alias holds a question generated from the table chunk it points to, and no question about a table chunk is missing |
| Enriching.AliasesAre | src/agentdrive/core/pipeline/enrichment/table_questions.py:15-29 | the aliases are, chunk by chunk and in order, one for each question about a table chunk and none for any other |
| Enriching.LoadChunkGroups | src/agentdrive/core/pipeline/ingest.py:384-427 | the groups hold one new object per stored chunk, with its content and prefix, ordered by parent as read and then by index |
| Enriching.NeighborPartsAre | src/agentdrive/core/pipeline/enrichment/contextual.py:79-84 | the neighbours of a group are all groups of the range but itself, in order, each a prefix of its parent's content of at most 500 characters, and the whole of it when it is no longer |
| Enriching.GetNeighbors | src/agentdrive/core/pipeline/enrichment/contextual.py:73-85 | the loop joins the contents of the groups up to three places away on either side, within the list |
| Enriching.EnrichOne | src/agentdrive/core/pipeline/enrichment/contextual.py:97-111 | the prefix becomes the answer to the document summary, the section summaries, the neighbours and the chunk's text, and stays as it was when that answer is empty |
| Enriching.NewPrefixIs | src/agentdrive/core/pipeline/enrichment/contextual.py:54-111 | the request for a prefix, spelled out: sections as `heading: summary` joined by ` | `, the contents of up to three groups on either side cut to 500 characters and joined by `---` lines, and the empty answer |
| Enriching.NewPrefixIsUnique | src/agentdrive/core/pipeline/enrichment/contextual.py:54-111 | that description leaves no choice of prefix |
| Enriching.EnrichedPrefixes | src/agentdrive/core/pipeline/ingest.py:311-341 | for every reading order, row j gets the answer for the j-th chunk read, or the prefix that chunk had before if the answer is empty |
| Enriching.EnrichChunksWithSummaries | src/agentdrive/core/pipeline/enrichment/contextual.py:88-120 | every child is enriched once, in place, from the prefix it had, with the neighbours of its own group |
| Enriching.GenerateTableAliases | src/agentdrive/core/pipeline/enrichment/table_questions.py:15-29 | the questions of the table chunks in reading order, each with the chunk object it was asked for |
| Enriching.MatchRows | src/agentdrive/core/pipeline/ingest.py:337-341 | row j takes the prefix of the j-th chunk, and the j-th chunk object is remembered as row j |
| Enriching.EnrichBatch | src/agentdrive/core/pipeline/ingest.py:307-354 | the whole of one batch refines the specification for every order in which parents can come back |
| Embedding.EmbedFileChunks | src/agentdrive/core/pipeline/embedding/pipeline.py:13-52 | one commit in which the slices of 64 are stored, none for a batch without chunks; the count returned is that of the chunks reached by the answer to their slice |
| Embedding.EmbedFileAliases | src/agentdrive/core/pipeline/embedding/pipeline.py:55-92 | the same for aliases, for every order in which they can be read |
| Embedding.ChunkCountFull | src/agentdrive/core/pipeline/embedding/pipeline.py:28-52 | the count is that of all chunks if and only if no slice is answered with fewer vectors than texts |
| Embedding.AliasCountFull | src/agentdrive/core/pipeline/embedding/pipeline.py:73-92 | the same for aliases, for any order of reading |
| Embedding.ChunksEmbedded | src/agentdrive/core/pipeline/embedding/pipeline.py:29-48 | with an embedder that treats each text on its own, chunk k gets the vector of its prefix, a line break and its content, or of its content without a prefix, asked for with the content type of the first chunk of its slice of 64, and the first 256 places of that vector |
| Embedding.AliasesEmbedded | src/agentdrive/core/pipeline/embedding/pipeline.py:73-88 | every alias gets the vector of its own question, whatever the order of reading and wherever the slices fall |
| Embedding.ChunksGetAnswers | src/agentdrive/core/pipeline/embedding/pipeline.py:28-48 | for any embedder, chunk k gets the vector at its place in the answer to its slice of 64 and that vector's first 256 places, and stays as it was if the answer is too short |
| Embedding.AliasesGetAnswers | src/agentdrive/core/pipeline/embedding/pipeline.py:73-88 | the same for the alias read at place j, for any order of reading |
| Embedding.ChunkVectorsExactly | src/agentdrive/core/pipeline/embedding/pipeline.py:28-48 | whatever vectors the chunks already have, all have one afterwards if and only if each had one or is reached by the answer to its slice |
| Embedding.AliasVectorsExactly | src/agentdrive/core/pipeline/embedding/pipeline.py:73-88 | the same for aliases, for any order of reading |
| Embedding.ChunksTwice | src/agentdrive/core/pipeline/embedding/pipeline.py:29-48 | for any embedder, running the slice loop again on a batch stores the vectors it already has |
| Summarizing.HierarchicalSummarize | src/agentdrive/core/pipeline/ingest.py:245-259 | the groups are those of the greedy packer with a cap of 50,000, numbered from 1, and their summaries are reduced in this order |
| Summarizing.Summarize | src/agentdrive/core/pipeline/ingest.py:271-281 | above 200,000 tokens the summary is hierarchical, otherwise one request over all parents |
| Summarizing.SummarizedIs | src/agentdrive/core/pipeline/ingest.py:245-281 | up to 200,000 tokens the summary is the answer for the contents of all parents joined by blank lines; above, it is the reduced answers for groups that hold all parents in order, group g of n sent as its joined contents with the numbers g and n |
| Summarizing.GroupsCoverParents | src/agentdrive/core/pipeline/ingest.py:223-259 | each parent is in exactly one request, in order; each request is within the cap or a single parent; no such division has fewer, and there are at most 2*floor(total/50001) + 1 |
| Packing.Pack | src/agentdrive/core/pipeline/ingest.py:223-242 | the loop computes the greedy division |
| Packing.GreedyIsPacking | src/agentdrive/core/pipeline/ingest.py:231-242 | the groups are nonempty, join to the input, and each is within the cap or a single item |
| Packing.GreedyIsOptimal | src/agentdrive/core/pipeline/ingest.py:231-242 | no division into consecutive groups of that kind has fewer groups |
| Packing.GreedyCountBound | src/agentdrive/core/pipeline/ingest.py:231-242 | there are at most 2*floor(total/(cap+1)) + 1 groups |
| IngestQueue.NextKeepsInv | src/agentdrive/core/pipeline/queue.py:27-72 | every step, including a status read, a refresh or a handler's commit that raises, keeps the invariant: ids exclusive, statuses as the workers' stages say, every PENDING file in reach or recorded as stranded, tasks counted |
| IngestQueue.QueueIsExclusive | src/agentdrive/core/pipeline/queue.py:27-72 | in every reachable state no id waits twice, is held twice, or both; a PENDING file waits, is held or is about to be enqueued if and only if no step since the last shutdown lost it; unfinished tasks are those waiting and those held; nothing READY or FAILED waits |
| IngestQueue.StrandsExactly | src/agentdrive/core/pipeline/queue.py:29-72 | a PENDING file of a running server neither waits nor is held nor is about to be enqueued if and only if, since the last shutdown, an exception ended the worker that held it while it was PENDING, or the request that completed its upload failed before it enqueued it |
| IngestQueue.StrandedWait | src/agentdrive/core/pipeline/queue.py:29-72 | such a file keeps its row, waits nowhere and is held by no worker, until it is deleted or the server restarts |
| IngestQueue.PendingCanBeStranded | src/agentdrive/core/pipeline/queue.py:32-33 | six steps that lead to a PENDING file that neither waits nor is held |
| IngestQueue.OnlyDeletedFilesAreSkipped | src/agentdrive/core/pipeline/queue.py:33-39 | a worker skips an id if and only if the file was deleted |
| IngestQueue.OutcomesAreFinal | src/agentdrive/core/pipeline/queue.py:41-70 | the row of a READY or FAILED file changes in no step but its deletion, except that its own worker can still turn it FAILED while the last commit of the attempt returns |
| IngestQueue.WorkerCommits | src/agentdrive/core/pipeline/ingest.py:43-91 | a worker's commits give the row it holds PROCESSING and then the outcome, each with the moment of the commit, and change no other row |
| IngestQueue.OrphansWait | src/agentdrive/core/pipeline/queue.py:99-108 | a PROCESSING file that no worker holds keeps its row and is not queued until it is deleted or the server restarts |
| IngestQueue.BootQueuesOnce | src/agentdrive/core/pipeline/queue.py:96-143 | a restart queues exactly the PENDING files and the PROCESSING ones past the threshold, each once, and removes exactly the stale uploads; younger orphans stay as they are |
| IngestQueue.Server.Enqueue | src/agentdrive/core/pipeline/queue.py:22-24 | the id goes to the end of the queue and is counted as an unfinished task |
| IngestQueue.Server.CreateUploadUrl | src/agentdrive/core/files.py:63-83 | a file above the size limit is refused; otherwise it starts UPLOADING and is not queued |
| IngestQueue.Server.CompleteUploadOf | src/agentdrive/core/files.py:89-108 | an UPLOADING file of the tenant whose blob exists becomes PENDING with the size of the blob; in every other case nothing changes and the error says which |
| IngestQueue.Server.FinishUploadOf | src/agentdrive/core/files.py:109-111 | after the commit the id is queued and counted if the record can be read again, and otherwise never |
| IngestQueue.Server.DeleteFile | src/agentdrive/core/files.py:168-173 | the tenant's file is removed, and the queue is left as it is |
| IngestQueue.Server.WorkerGet | src/agentdrive/core/pipeline/queue.py:30 | an idle worker takes the id at the front |
| IngestQueue.Server.WorkerAdmit | src/agentdrive/core/pipeline/queue.py:33-39 | only a PENDING file is processed; any other id is let go and counted as done; if the read raises, the worker ends |
| IngestQueue.Server.WorkerDies | src/agentdrive/core/pipeline/queue.py:31-72 | an exception that leaves the loop marks the task done, lets the id go, and the worker takes no other |
| IngestQueue.Server.WorkerTaskDone | src/agentdrive/core/pipeline/queue.py:71-72 | the id is let go and one task fewer is unfinished |
| IngestQueue.Server.StopWorkers | src/agentdrive/core/pipeline/queue.py:82-87 | queue and held ids are lost; the rows stay as they are |
| IngestQueue.Server.ReapStuckFiles | src/agentdrive/core/pipeline/queue.py:90-143 | the three passes over the rows refine the start-up step, and the ids returned are the new queue |
| Windows.WindowsAreWindowing | src/agentdrive/core/pipeline/chunking/hierarchy.py:45-68 | the windows start at 0, end at n, each is filled as far as the budget lets it, and each next one starts where the longest suffix of the last within the overlap budget starts |
| Windows.WindowingIsUnique | src/agentdrive/core/pipeline/chunking/hierarchy.py:45-68 | that description has exactly one solution |
| Windows.Seam | src/agentdrive/core/pipeline/chunking/hierarchy.py:55-65 | each window brings at least one new sentence, the first of them is the one after the last window's end, and what it repeats is within the overlap budget |
| Windows.FreshItemsAreItems | src/agentdrive/core/pipeline/chunking/hierarchy.py:45-68 | with repeats left out the windows give back the sentences, each once and in order |
| Windows.WindowCostBound | src/agentdrive/core/pipeline/chunking/hierarchy.py:48-68 | a window's token sum is at most max(C, O + tokens of its last sentence) |
| Windows.FlushBound | src/agentdrive/core/pipeline/chunking/hierarchy.py:48-65 | the loop flushes at most 2*floor(T/(C-O+1)) times, for O at most C |
| Windows.StoredCostBound | src/agentdrive/core/pipeline/chunking/hierarchy.py:48-76 | all windows together cost at most T plus O for each flush |
| Hierarchy.Overlap | src/agentdrive/core/pipeline/chunking/hierarchy.py:55-65 | walking backwards finds the longest suffix within the overlap budget, and its token sum |
| Hierarchy.AccumulateChildren | src/agentdrive/core/pipeline/chunking/hierarchy.py:39-84 | the children are the texts of the windows, the last one merged into the one before it when it is too small |
| Hierarchy.BuildParentChildChunks | src/agentdrive/core/pipeline/chunking/hierarchy.py:11-113 | the groups are the children packed greedily, each parent the text of its children; nothing for blank text, one group for text within the child budget, and the fallback to a single sentence is never taken |
| Hierarchy.NeverEmpty | src/agentdrive/core/pipeline/chunking/hierarchy.py:35-37 | text that is not blank has a sentence |
| Hierarchy.MergeTailConserves | src/agentdrive/core/pipeline/chunking/hierarchy.py:78-84 | the tail merge neither loses, adds nor moves a character other than a space |
| Hierarchy.WindowsConserve | src/agentdrive/core/pipeline/chunking/hierarchy.py:39-84 | the sentences behind the windows, repeats left out, are the sentences of the text |
| Hierarchy.ChildrenConserve | src/agentdrive/core/pipeline/chunking/hierarchy.py:20-84 | each child holds, space aside, the pieces of its windows (two for a merged tail), each first what it repeats, which is the end of what was added before, and then what it adds; the added parts are the text's non-space characters, in order and once; a text within the budget is one child, stripped; only blank text has none |
| Hierarchy.ChildrenAreWindows | src/agentdrive/core/pipeline/chunking/hierarchy.py:46-84 | beyond the budget the children are, word for word, the sentences of each window joined by spaces, and the last two joined by a space when the last counts less than the minimum |
| Hierarchy.ParentsPackChildren | src/agentdrive/core/pipeline/chunking/hierarchy.py:86-109 | the parents hold the children in order, each within the cap by the summed token counts of its children's contents or with a single child, and no such division has fewer parents |
| Hierarchy.ChunksAreMade | src/agentdrive/core/pipeline/chunking/hierarchy.py:27-109 | every parent and child states the token count of its own content, and the prefix and content type of the call |
| Hierarchy.ChunkText | src/agentdrive/core/pipeline/chunking/text.py:9-13 | the plain-text chunker hands on its paragraphs, stripped and joined, with the default budgets and the prefix of its file |
| Hierarchy.TextConserved | src/agentdrive/core/pipeline/chunking/text.py:9-13 | of the groups that the plain-text chunker returns: their children cover the file as `Hierarchy.ChildrenConserve` says, each parent holds the text of its children, every chunk counts its own tokens and names the file, and there is no group exactly for a blank file |
| Text.SentencesConserve | src/agentdrive/core/pipeline/chunking/hierarchy.py:7-9 | the sentences hold the non-space characters of the text in order, and there are none only for blank text |
| Text.PiecesAreSentences | src/agentdrive/core/pipeline/chunking/hierarchy.py:5-8 | no piece can be split further, and each cut follows a stop and precedes a capital letter |
| Text.BoundaryIs | src/agentdrive/core/pipeline/chunking/hierarchy.py:5 | the text is cut at i exactly if spaces run from there to a capital letter, behind `.`, `!` or `?` |
| Text.NormalizeConserves | src/agentdrive/core/pipeline/chunking/text.py:11-12 | splitting at blank lines, stripping and joining keeps every non-space character in order |
| Text.NormalizeIs | src/agentdrive/core/pipeline/chunking/text.py:11-12 | the text handed on is the parts between blank lines that are not blank, stripped, joined by blank lines |
| Text.StripIs | src/agentdrive/core/pipeline/chunking/text.py:11 | stripping cuts off exactly the spaces at both ends |
| Fences.Protect | src/agentdrive/core/pipeline/chunking/markdown.py:32-41 | the protected text and the blocks are those of the parse: leftmost opening ticks, first closing ticks |
| Fences.ParseIsUnique | src/agentdrive/core/pipeline/chunking/markdown.py:10 | the blocks are the matches of the pattern: each opens at the first place where one can, closes at the first three backticks behind its opening ones, and no other division of the text has these properties |
| Fences.RestoreAll | src/agentdrive/core/pipeline/chunking/markdown.py:51-53 | the keys are replaced one after the other, in order, each everywhere |
| Fences.ReplaceStep | src/agentdrive/core/pipeline/chunking/markdown.py:52-53 | in a text without the marker, replacing key k restores block k and changes nothing else; `__CODE_BLOCK_1__` is not found in `__CODE_BLOCK_10__` |
| Fences.CutDoc | src/agentdrive/core/pipeline/chunking/markdown.py:99 | every line break of the protected text lies between blocks |
| Fences.Restoring | src/agentdrive/core/pipeline/chunking/markdown.py:52-53 | for any text with placeholders, restoring all keys gives the original or something that differs from it in a character that is not a space; a wrong replacement is never repaired by a later one |
| Fences.SectionsExactly | src/agentdrive/core/pipeline/chunking/markdown.py:32-53 | the restored parts join to the body, and hold its non-space characters, if and only if no key `__CODE_BLOCK_k__` of one of its blocks is found, at its turn, anywhere but in its placeholder |
| Fences.CleanHasNoStray | src/agentdrive/core/pipeline/chunking/markdown.py:36-53 | that is so for every body that nowhere contains `CODE_BLOCK_` |
| Fences.KeyInTextStrays | src/agentdrive/core/pipeline/chunking/markdown.py:36-53 | and for no body whose plain text holds the key of one of its blocks: it does not come back |
| Fences.FenceRoundTrip | src/agentdrive/core/pipeline/chunking/markdown.py:32-53 | if no key strays, then however the protected text is divided at line breaks, each restored part is a part of the original and each block is whole in exactly one of them, in order |
| Fences.RoundTripNeedsCleanText | src/agentdrive/core/pipeline/chunking/markdown.py:36-53 | one such body: a placeholder and one block |
| Markdown.LevelIsMatch | src/agentdrive/core/pipeline/chunking/markdown.py:8 | a line has level h exactly when the heading pattern matches it with h number signs |
| Markdown.SplitByHeadings | src/agentdrive/core/pipeline/chunking/markdown.py:97-129 | the sections start at the H1 and H2 lines, with the breadcrumb of the last H1 and the opening heading; the fallback for no sections is never taken |
| Markdown.CrumbsAre | src/agentdrive/core/pipeline/chunking/markdown.py:97-129 | the sections are consecutive lines; a section that begins with an H1 has its title as breadcrumb, one that begins with an H2 the title of the last H1 before it, unless there is none or it is blank, and its own, and any other has none |
| Markdown.SectionsAreSectioning | src/agentdrive/core/pipeline/chunking/markdown.py:97-129 | there is at least one section; they join by newline to the text; an H1 or H2 line is only ever the first of its section, and every section but the first starts with one |
| Markdown.SectioningIsUnique | src/agentdrive/core/pipeline/chunking/markdown.py:97-129 | no other list of texts has these properties |
| Markdown.SectionsRoundTrip | src/agentdrive/core/pipeline/chunking/markdown.py:32-53 | if no key strays, the restored sections join to the body and each fenced block is whole in exactly one of them |
| Markdown.SectionsRestoredExactly | src/agentdrive/core/pipeline/chunking/markdown.py:32-53 | the restored sections join to the body, and hold its non-space characters, if and only if no key strays |
| Markdown.RunsAreRuns | src/agentdrive/core/pipeline/chunking/markdown.py:57-95 | every section is in exactly one run, in order; each run is tiny sections and then a large one, and only the last may be tiny ones alone |
| Markdown.RunsAreUnique | src/agentdrive/core/pipeline/chunking/markdown.py:57-95 | there is only one such division |
| Markdown.ChunkMarkdown | src/agentdrive/core/pipeline/chunking/markdown.py:32-95 | the loop hands each run on as one text, with the breadcrumb of its large section, or of its first when all are tiny |
| Markdown.RunChunks | src/agentdrive/core/pipeline/chunking/markdown.py:57-95 | the chunks of a run are those of its sections joined by blank lines under the default budgets, each with the file name and the breadcrumb of the last section, or of the first when the last has fewer than 100 tokens |
| Markdown.MarkdownConserves | src/agentdrive/core/pipeline/chunking/markdown.py:32-95 | of the groups that the markdown chunker returns: their children hold the pieces of their windows, whose added parts are the non-space characters of the restored sections, in order and once; these are the characters of the body if and only if no key strays; each parent holds the text of its children |
| Fusion.Tally | src/agentdrive/core/search/fusion.py:9-15 | the keys are the distinct ids in the order of first appearance, each with the sum of 1/(k+rank+1) over all places (list, rank) that hold it and its first record |
| Fusion.Fuse | src/agentdrive/core/search/fusion.py:3-25 | the first min(top_k, distinct ids) of the ranking, each the first record of its id, rescored in place with the sum of 1/(k+rank+1) over its places; no other record changes |
| Fusion.TotalScoreIs | src/agentdrive/core/search/fusion.py:12-13 | the score by which ids are ranked is that sum |
| Fusion.TwoListsBeatOne | src/agentdrive/core/search/fusion.py:9-17 | an id at rank s of two lists scores above one at rank r of a single list if and only if s < k + 2r + 1, and then precedes it |
| Fusion.RankingOrder | src/agentdrive/core/search/fusion.py:17 | of two ranked ids the earlier scores higher, or scores the same and appeared first |
| Fusion.TopIsBest | src/agentdrive/core/search/fusion.py:17-23 | the output has no repeats, every id of some list is ranked and no other, and nothing left out scores above what is returned |
| Fusion.AheadEverywhereIsAhead | src/agentdrive/core/search/fusion.py:9-23 | on lists without repeats, a chunk ahead of another in every list that has the other precedes it in the output, and is in the top whenever the other is |
| Fusion.MoveUpScores | src/agentdrive/core/search/fusion.py:12-13 | moving a chunk up in one list raises its score and no other |
| Fusion.MoveUpNeverHurts | src/agentdrive/core/search/fusion.py:9-23 | moving a chunk up in one list never worsens its place in the output |
| StableSort.SortIsRanking | src/agentdrive/core/search/fusion.py:17 | the stable descending sort lists each element once, by key and then by place |
| StableSort.RankingIsUnique | src/agentdrive/core/search/fusion.py:17 | only one list does |
| VectorMerge.MergeAliases | src/agentdrive/core/search/vector.py:77-86 | an alias row is appended only if neither a main row nor an earlier alias row has its id |
| VectorMerge.SortByScore | src/agentdrive/core/search/vector.py:89 | the records in stable order of descending score |
| VectorMerge.Search | src/agentdrive/core/search/vector.py:50-92 | the first top_k of the merged list, each a record of its own |
| VectorMerge.CandidatesDeserve | src/agentdrive/core/search/vector.py:76-86 | every id that occurs is a candidate once, with its main row's score, or else the best of its alias rows' |
| VectorMerge.MergeIsBest | src/agentdrive/core/search/vector.py:76-92 | the result is without repeats and in descending order of the score each id deserves, and nothing left out deserves more |
| Retrieval.DeservingMoreIsAhead | src/agentdrive/core/search/vector.py:76-92 | the ids returned by vector search have no repeats, and a chunk that deserves more than another stands before it, however many results are kept |
| Retrieval.BetterInBothIsAhead | src/agentdrive/core/search/engine.py:31-38 | a chunk that deserves more than another in vector search and stands before it among the keyword results, wherever that one occurs, precedes it in the fused ranking, and is in the top whenever that one is |
| OAuth.NextKeepsInv | src/agentdrive/api/mcp/oauth.py:67-231 | every step with a fresh draw keeps the invariant of linear ownership |
| OAuth.TakenAtMostOnce | src/agentdrive/api/mcp/oauth.py:82-201 | over every interleaving, no login state, code or refresh token is taken out twice |
| OAuth.KeysAreLinear | src/agentdrive/api/mcp/oauth.py:153-231 | each minted key is held by at most one live code or refresh token, that holder carries the client that began the login, and an exchange hands the key only to that client; each live code carries the address, challenge, resource and scopes of the login its key was minted for |
| OAuth.ExchangeMovesKey | src/agentdrive/api/mcp/oauth.py:178-201 | after a successful exchange only the new refresh token holds the key, and what was presented is worth nothing to anyone |
| OAuth.Provider.AuthorizeClient | src/agentdrive/api/mcp/oauth.py:67-80 | a new login is pending under its state, with the client and all its parameters; none when the service is not configured |
| OAuth.Provider.BeginCallback | src/agentdrive/api/mcp/oauth.py:82-86 | the pending login is taken out before anything is waited for; an unknown state is refused |
| OAuth.Provider.FinishCallback | src/agentdrive/api/mcp/oauth.py:88-168 | only a login that got through mints a key, which goes with a new code for the client that began it, with the scopes, challenge, address and resource it asked for; either way the client is sent to its own address with its own state |
| OAuth.Provider.ExchangeAuthorizationCode | src/agentdrive/api/mcp/oauth.py:178-184 | the code is spent even when the client is not its own, and then no token is issued |
| OAuth.Provider.ExchangeRefreshToken | src/agentdrive/api/mcp/oauth.py:192-201 | the refresh token is spent even when the client is not its own; otherwise the key moves to a new one |
| OAuth.Provider.RevokeToken | src/agentdrive/api/mcp/oauth.py:215-217 | revoking a refresh token removes it; revoking an access token changes nothing |

## Left out

- External services and libraries: object storage, document parsing, the language model, the embedder, the tokenizer and the login service are parameters.
- SQL and the database: rows, the order of rows, commit and rollback are modelled; queries, locks, isolation and foreign keys are not. Row ids are positions.
- Routing, request schemas, configuration, the web front end and logging.
- The metadata of chunks and files, markdown front matter, and the error text stored with a FAILED file.
- The spreadsheet, structured-data, PDF, notebook and code chunkers: slicing and library-driven walks that would only add easy members.
- `bm25_score`, reranking and `SearchEngine.search`: easy arithmetic, and glue around a foreign reranker.
- `is_table_chunk` is a parameter: nothing depends on which chunks count as tables.
- Concurrency inside a run: `gather` starts the enrichment requests together; here they run in order. No request reads what another one writes, so the order does not matter to the result.
- A file row that disappears while its file is processed. An error handler whose own commit fails leaves the file as it was: that is `Crashed` in a run and `Die` in the queue.
- Two runs of `process_file` for one file at a time: `IngestQueue.QueueIsExclusive` rules them out within one server process.
- Automatic retry of FAILED files: the program does not do it.
- The clock: thresholds are given as times.
- `get_client`, `register_client`, the `load_` methods and the expiry of codes: they only read or are the framework's own checks.
- Rounding of floating-point scores.
- Breadcrumbs that contain a placeholder, and the order of two batches with the same index: no claim is made.
- IngestQueue.Server.CompleteUploadOf: does not model two overlapping calls for one file; the check and the status change are one step.
