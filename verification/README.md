# Verified model of the graph memory service

The project models the parts of the service whose correctness is hardest to see from one function: the bounded
walks over the canonical graph, the durable hand-off of a document from indexing to extraction, the writers of
evidence and the collector that undoes them, the text machinery under them, the community hierarchy, and the links,
ranks and pages served to readers. `dafny verify dfyconfig.toml` checks it.

## Layout

| file | models |
|---|---|
| `GraphRead.dfy` | rows of the read side, support and validity filters, the snapshot a walk sees |
| `Walk.dfy` | bounded breadth-first walk, path rebuilding, the path and subgraph endpoints |
| `Traverse.dfy` | multi-source traversal with fan-out |
| `JobProtocol.dfy` | graph and indexing jobs, outboxes, lease, queues and workers as a transition system; all interleavings |
| `JobRuns.dfy` | runs from a fresh document: two workers on one job, shared readings, dead ends, rows out of step |
| `IndexRecovery.dfy` | when the indexing job can still be brought on |
| `JobStore.dfy` | the same transactions on rows updated in place, each proved to be its step of the protocol |
| `Evidence.dfy` | the normalising substring finder with source maps |
| `EvidenceLaws.dfy` | what the normalisation does to hyphens, line breaks, white space and where two texts meet |
| `Chunker.dfy` | the overlapping chunker with exact offsets |
| `Batch.dfy` | the budgeted batch fitter, the reply reader and the recursive batch extractor |
| `GraphTables.dfy` | the written tables and what provenance means |
| `Pipeline.dfy` | what one chunk and one consolidation write, as functions of the tables |
| `Extracted.dfy` | what persisting a chunk adds, in terms of the items of its extraction |
| `Consolidated.dfy` | what a consolidation adds, in terms of its items |
| `GraphWriter.dfy` | the same writers in place, and the extraction of a document under failures |
| `Collector.dfy` | the document collector, stage by stage, and in place |
| `GraphRuns.dfy` | histories of writing, failing, retrying and collecting |
| `Analytics.dfy` | the three-level community hierarchy and its conservation laws |
| `Supersession.dfy` | supersession, merge and delete of episodes |
| `Patterns.dfy` | learned patterns: promotion, feedback and supersession |
| `RankFusion.dfy` | weighted reciprocal rank fusion |
| `Paging.dfy` | keyset pages and the client loops that follow them |
| `Wrappers.dfy`, `Helpers.dfy` | `Option`; small shared functions and facts |

## How to read it

- A database commit is one atomic step; what a provider replies, a clock reads or a scheduler picks is a parameter or
  an arbitrary choice, so that every theorem holds for all of them.
- On the read side an id is a number that stands for its rank in the database's string order. On the write side an id
  is the tuple of parts that the service hashes, which takes the hash to be injective.
- Unicode is an arbitrary table: a white-space test, a per-character compatibility expansion and a folded name.
  `Evidence.Unicode.Sane` and `EvidenceLaws.Standard` state what the proofs need of it.
- A method that changes state is proved equal to a function of the old state; the theorems are about that function.
- Weights, confidences and scores are exact reals.

## Where the code does not give the obvious claim

- The outbox counter is never reset, so a queued job at 20 attempts with nothing under way stays where it is for ever,
  whatever is uploaded or indexed anew: `JobProtocol.DeadEndIsForever`, reached in `JobRuns.DeadEndHappens`; when a job
  can be recovered is said exactly by `JobProtocol.RecoverableUnlessStranded`.
- The same holds of the indexing outbox: after twenty failed publishes a document is never indexed, however often it is
  enqueued again: `IndexRecovery.IndexDeadEndIsForever`, `JobRuns.IndexDeadEndHappens`.
- A job given up at its last attempt fails without its document; `JobProtocol.StepFallsOut` says exactly when rows fall
  out of step, `JobRuns.CrashesFallOutOfStep` shows a run.
- At most one worker per job needs four hypotheses about the environment, each of them necessary
  (`JobRuns.EveryHypothesisIsNeeded`), or else a broker that never gives up an execution under way
  (`JobProtocol.PatientBrokerExcludes`).
- A late publish failure is told from a current one by the clock reading of the dispatch alone:
  `JobProtocol.LateFailureIsIgnored` says exactly when it is ignored, `JobRuns.SharedReadingIsConfused` shows a run.
- Both callers of the collector delete the parent rows first, and the evidence cascades with them; the collector then
  does nothing (`Collector.CascadeDisarmsCollector`), and what only the deleted document gave stays behind
  (`GraphRuns.DeletionFoldsIff`, and from empty tables `GraphRuns.DeletionBreaksFold`).
- A succeeded run that a second worker starts over keeps keys that its new extraction no longer gives:
  `GraphRuns.RestartFoldsIff`, and from empty tables `GraphRuns.RestartBreaksFold`.
- The collector looks for the endpoints of a deleted relation after deleting it, so its completeness rests on the
  writers, which always cite endpoints: `Collector.OrphanRemovedIffCited`, `GraphRuns.CollectorIsCompleteInHistory`.
- `merge_memories` has no cycle check: `Supersession.StepAcyclicIff` says exactly when it closes a cycle.
- A superseded pattern can be promoted again by an outcome or by feedback, although the message at
  `apps/api/app/memory/api.py:381` says it cannot: `Patterns.SupersededPromotedIff` says exactly when.
- Window ends of the chunker stall for overlaps above size / 2 + 1: `Chunker.EndsIncreaseIffNarrow`.
- A relation limit counts rows that lead nowhere, so a relation cut on one level can turn up on a later one; and a full
  result may leave out a relation between two entities it holds. `Walk.BoundedWalk` says for every relation that is
  missing, or recorded late, which relations came before it.
- Density exceeds one for some group unless there is at most one self-loop and its entity has no other edges:
  `Analytics.DensityBoundedIffLoopsAlone`. The writers store no self-loop.

## Model

| member | source | states |
|---|---|---|
| `GraphRead.ViewIsLive` | apps/api/app/graph/helpers.py:14-41 | a walk sees exactly the rows of its scope that are supported, valid and not superseded, in key order |
| `Walk.Visit` | apps/api/app/graph/service.py:257-278 | one row: the tree of entities grows by at most the far endpoint, one level below the frontier and hanging on this row; a row whose two ends can be taken is recorded, or the node limit was used up and one of its ends is not there |
| `Walk.Level` | apps/api/app/graph/service.py:256-279 | one level adds entities of the next depth only, the new frontier is exactly the entities added, and every row is recorded unless the target was met before it or rows with smaller ids had used up the node limit |
| `Walk.BoundedWalk` | apps/api/app/graph/service.py:205-280 | under any limits: the parent map is a tree of live relations rooted at the root, every relation kept has both endpoints in the result and touches an entity less than `depth` deep, the node, relation and depth limits hold, and only the target stops the walk early; every live relation that touches an entity of a level swept was followed one level down at most, or at least `relation_limit` relations came before it (recorded further up, or rows of its level with smaller ids), or the node limit was used up further up or by rows with smaller ids; so the walk is complete once what lies within the depth, and the relations on the way, number no more than the limits, however large the dataset |
| `Walk.LevelSettles` | apps/api/app/graph/service.py:234-279 | after a level, every relation at its frontier is followed, or a limit accounts for it by relations that come first |
| `Walk.UntrimmedIsSwept` | apps/api/app/graph/service.py:215-279 | limits no smaller than what lies within the depth can account for nothing, so that everything has been followed |
| `Walk.SweptIsReach` | apps/api/app/graph/service.py:205-280 | a complete walk without a target finds exactly the entities within `depth` live relations of the root |
| `Walk.SweptIsEarliest` | apps/api/app/graph/service.py:215-279 | no entity of a complete walk could have been reached by fewer relations than its depth in the tree |
| `Walk.PathIds` | apps/api/app/graph/service.py:283-299 | climbing the parent map ends, with nothing for an unknown target and otherwise with a simple path of recorded relations whose i-th relation joins its i-th and next node and whose length is the target's depth |
| `Walk.PathIsShortest` | apps/api/app/graph/service.py:205-299 | when the limits cut nothing off, the target is found exactly when a path of at most `max_depth` live relations exists, and no path is shorter than the target's depth |
| `Walk.Path` | apps/api/app/graph/api.py:135-167 | the endpoint: missing entities are refused; a reported path is a simple live path within the depth whatever the limits; with limits no smaller than what lies within the depth it is a shortest one and its absence is conclusive; and in any dataset two entities joined by a relation are found one hop apart, unless relations of the source with smaller ids use up a limit |
| `Walk.AdjacentIsFound` | apps/api/app/graph/service.py:215-279 | that relation is found whenever fewer than `relation_limit` and fewer than `node_limit` - 1 relations of the source have smaller ids |
| `Walk.SubgraphKeepsEverything` | apps/api/app/graph/api.py:183-197 | the filter of the subgraph view drops no relation of the walk |
| `Walk.QueryFits` | apps/api/app/graph/service.py:222-239 | relations taken earlier and the rows of the next query together never exceed the live relations |
| `Walk.ReachHasPath` | apps/api/app/graph/service.py:215-279 | everything within `d` levels has a path of at most `d` relations |
| `Walk.PathStaysInReach` | apps/api/app/graph/service.py:215-279 | every path of `n` relations ends within `n` levels |
| `Traverse.Traverse` | apps/api/app/graph/store.py:109-236 | depths other than 1 and 2 are an error and empty limits give nothing; otherwise every trail recorded starts at a supported seed, joins live relations, repeats no entity and has at most `max_depth` relations; on every level exactly the best relations of its entities are taken, `fanout` for each, and a new trail grows by the best of them that leads there; there are at most seeds * (1 + fanout + fanout^2) trails; and with no more relations within sight than `fanout`, exactly what lies within the depth has a trail, a shortest one |
| `Traverse.TraceIsUnique` | apps/api/app/graph/store.py:109-236 | the seeds, the fan-out, the ranking and the snapshot determine trails and relations completely |
| `Traverse.LevelNow` | apps/api/app/graph/store.py:183-236 | a level takes a relation exactly when fewer relations of its entities come before it than the limit allows |
| `Traverse.Expand` | apps/api/app/graph/store.py:181-236 | one level follows exactly the best rows of its query: their supported ends are recorded, relations are noted exactly when both ends are supported, and at most frontier * fanout entities are new |
| `Traverse.Follow` | apps/api/app/graph/store.py:211-235 | one row extends the trail of the endpoint that matched the frontier, never an arbitrary one |
| `Traverse.LimitKeepsBest` | apps/api/app/graph/store.py:201-204 | every relation kept by the limit of a level has a higher confidence than every relation of the level that is cut, or the same and a smaller key |
| `Traverse.BestLeads` | apps/api/app/graph/store.py:201-204 | the query returns, best first, exactly the relations of the frontier that fewer than frontier * fanout of them come before |
| `Traverse.TrailAlternates` | apps/api/app/graph/store.py:226-234 | the i-th relation of a trail joins its i-th and next entity |
| `Traverse.TrailIsSimple` | apps/api/app/graph/store.py:226-234 | no entity occurs twice on a trail |
| `Traverse.TrailStaysWithin` | apps/api/app/graph/store.py:226-234 | a trail of `n` relations ends within `n` relations of a seed |
| `Traverse.ExpandIsExact` | apps/api/app/graph/store.py:183-236 | a level that cuts nothing records exactly what lies one relation further |
| `JobProtocol.RunsAreSound` | apps/api/app/graph/dispatch.py:30-282 | in every interleaving: attempts never exceed their maximum, outbox attempts never exceed 20, a running job has a lease, a job has its outbox row, and a document whose indexing succeeded has its graph job and outbox |
| `JobProtocol.AttemptCountsClaims` | apps/api/app/graph/dispatch.py:217-236 | the attempt counter is the number of claims since the last enqueue, in every run |
| `JobProtocol.BreakOutcome` | apps/api/app/graph/dispatch.py:242-264 | in every run, an execution that fails leaves the job failed, and the document with it, exactly when its claims number `max_attempts`; before that the job is queued without lease for now + delay, the outbox row is unpublished with its attempts kept, and the document stays as it is; the delay doubles with each claim, from two seconds after the first up to sixty |
| `JobProtocol.BreakNextDispatch` | apps/api/app/graph/dispatch.py:65-94 | so the next dispatch comes exactly when that delay is over, if claims and outbox attempts are left |
| `JobProtocol.BreakIsRecoverable` | apps/api/app/graph/dispatch.py:65-264 | and a failure with both left can always be brought on by maintenance |
| `JobProtocol.ExecuteOutcome` | apps/api/app/graph/dispatch.py:202-236 | in every run, a message claims the job exactly when it is unfinished, not leased, claimed less often than allowed and its document persisted; at the last claim the job is given up, and otherwise nothing but the message changes |
| `JobProtocol.FinishOutcome` | apps/api/app/graph/dispatch.py:266-283 | in every run, a finished execution shows on job and document, and no message starts another one until the document is indexed anew |
| `JobProtocol.GivenUpNextDispatch` | apps/api/app/graph/dispatch.py:126-199 | a cancelled execution, or one whose lease has expired, may be dispatched again at once if outbox attempts are left |
| `JobProtocol.LeaseLasts` | apps/api/app/graph/dispatch.py:172-180 | a claim or a renewal holds the job for the length of a lease and no longer |
| `JobProtocol.TakenBack` | apps/api/app/graph/dispatch.py:126-168 | maintenance takes a dispatch back exactly when it is older than two leases, and a job exactly when its lease is over |
| `JobProtocol.HandedOn` | apps/api/app/graph/dispatch.py:30-62 | a document handed on by its indexing starts with no claim counted and is dispatched at once exactly when its outbox row has attempts left from before |
| `JobProtocol.IndexFailOutcome` | apps/api/app/ingestion.py:197-211 | in every run, a failed indexing run shows on its job and document, and a retry or a new upload has the job dispatched again if outbox attempts are left |
| `JobProtocol.IndexCancelOutcome` | apps/api/app/arq_worker.py:39-41 | a cancelled indexing run has its job dispatched again, unless it has succeeded |
| `JobProtocol.IndexProgressOutcome` | apps/api/app/ingestion.py:116-136 | progress of an indexing run under way shows on the document alone |
| `JobProtocol.OutboxRecordsLastClaim` | apps/api/app/graph/dispatch.py:90-94 | a published outbox row carries the clock reading of the latest dispatch |
| `JobProtocol.LateFailureIsIgnored` | apps/api/app/graph/dispatch.py:101-117 | a failed publish that was under way changes no row exactly when its clock reading is not that of the latest dispatch, or that dispatch has been taken back |
| `JobRuns.SharedReadingIsConfused` | apps/api/app/graph/dispatch.py:106-108 | a run from the initial state in which two dispatches share a reading and the first one's failure takes back the second |
| `JobProtocol.StepKeepsExclusive` | apps/api/app/graph/dispatch.py:126-282 | a step that respects the four hypotheses keeps at most one worker, under a live lease, keeps `complete` equivalent to SUCCEEDED, and changes a succeeded job only by enqueueing it anew |
| `JobProtocol.OneWorkerAtATime` | apps/api/app/graph/dispatch.py:126-282 | the same over every disciplined run: leases outlast their workers, only the holder is cancelled, nothing is enqueued under a worker, and the last publish arrives |
| `JobRuns.EveryHypothesisIsNeeded` | apps/api/app/graph/dispatch.py:126-282 | dropping any one of the four hypotheses admits a run from the initial state with two workers on one job, with a broker that drops repeated messages but may give up an execution under way |
| `JobProtocol.PatientBrokerExcludes` | apps/api/app/graph/dispatch.py:96-100 | with a broker that never gives up an execution under way, one message per job id is enough for one worker at a time, without any hypothesis |
| `JobProtocol.RecoverableUnlessStranded` | apps/api/app/graph/dispatch.py:65-169 | in every reachable state a queued or running job of a persisted document can be brought to a claim or an end by maintenance steps alone exactly when it is not stranded: outbox attempts used up, no message queued and no publish under way |
| `JobProtocol.StrandedStaysStranded` | apps/api/app/graph/dispatch.py:82-83 | no sequence of maintenance steps moves a stranded job |
| `JobProtocol.DeadEndIsForever` | apps/api/app/graph/dispatch.py:50-60 | a stranded queued job without a worker stays so under every sequence of steps of any kind, new uploads and new indexing included, since enqueueing does not reset the outbox counter |
| `JobRuns.DeadEndHappens` | apps/api/app/graph/dispatch.py:65-123 | a disciplined run from the initial state ends there: nineteen failed publishes, the twentieth delivered, and its worker cancelled |
| `JobProtocol.StepFallsOut` | apps/api/app/graph/dispatch.py:217-220 | rows in step come to a failed job whose document does not say so exactly when an execution gives the job up at its last attempt |
| `JobRuns.CrashesFallOutOfStep` | apps/api/app/graph/dispatch.py:217-220 | five crashes bring that about from the initial state: the job has failed and the document reads as being extracted |
| `IndexRecovery.IndexRecoverableUnlessStranded` | apps/api/app/arq_worker.py:154-285 | in every reachable state a queued or running indexing job can be brought to a run or an end by maintenance alone exactly when it is not stranded: outbox attempts used up, no message queued or held, no publish under way |
| `IndexRecovery.IndexStrandedStaysStranded` | apps/api/app/arq_worker.py:172 | no sequence of maintenance steps moves a stranded indexing job |
| `IndexRecovery.IndexDeadEndIsForever` | apps/api/app/ingestion.py:59-76 | a stranded indexing job without an execution is never indexed, whatever is uploaded anew, since enqueueing does not reset the outbox counter |
| `JobRuns.IndexDeadEndHappens` | apps/api/app/ingestion.py:59-76 | twenty failed publishes and one more upload bring that about from the initial state |
| `JobProtocol.RunningIsRecoverable` | apps/api/app/graph/dispatch.py:130-148 | a running job is recoverable through the expiry of its lease |
| `JobProtocol.QueuedIsRecoverable` | apps/api/app/graph/dispatch.py:65-123 | a queued job whose outbox has attempts left is recoverable through dispatch |
| `JobStore.Store.EnqueueGraphExtraction` | apps/api/app/graph/dispatch.py:30-62 | the in-place transaction is the step of the protocol on job, outbox and document rows; this and all other transactions keep the rows consistent: a job has its outbox row, a running job its lease, counters within their limits |
| `JobStore.Store.ClaimPending` | apps/api/app/graph/dispatch.py:75-94 | the dispatch claim, on the rows |
| `JobStore.Store.RecordPublishFailure` | apps/api/app/graph/dispatch.py:101-117 | the publish failure, on the rows, with the terminal case at 20 attempts |
| `JobStore.Store.ReconcileLeases` | apps/api/app/graph/dispatch.py:130-148 | expired leases, on the rows |
| `JobStore.Store.ReconcileDispatches` | apps/api/app/graph/dispatch.py:150-168 | stale dispatches, on the rows |
| `JobStore.Store.Renew` | apps/api/app/graph/dispatch.py:172-180 | lease renewal, on the rows |
| `JobStore.Store.RequeueJob` | apps/api/app/graph/dispatch.py:183-199 | the requeue after a cancellation, on the rows |
| `JobStore.Store.BeginExecution` | apps/api/app/graph/dispatch.py:202-236 | the first transaction of an execution: skip, give up at the cap without touching the document, refuse, or claim |
| `JobStore.Store.FailExecution` | apps/api/app/graph/dispatch.py:242-264 | the closing transaction of a failed execution, which `BreakOutcome` describes |
| `JobStore.Store.FinishExecution` | apps/api/app/graph/dispatch.py:266-281 | the closing transaction of a successful execution |
| `Evidence.NormalizeEvidence` | packages/core/src/open_graph_core/extraction.py:205-230 | the scan yields the normalised text with the source span of every character |
| `Evidence.SliceNormalizes` | packages/core/src/open_graph_core/extraction.py:205-230 | the source slice behind any run of normalised characters normalises, by itself, to that run, extended only by the rest of the expansions of its first and last character |
| `Evidence.EvidenceIsLocal` | packages/core/src/open_graph_core/extraction.py:189-202 | a quote is the exact source slice at its offset; normalised alone it reads as the normalised mention, with something before or after only where a boundary character expands to several |
| `Evidence.EvidenceIsComplete` | packages/core/src/open_graph_core/extraction.py:189-202 | no evidence is reported exactly when neither the mention nor its non-empty normal form can be read in the text |
| `Evidence.EvidenceIsStable` | packages/core/src/open_graph_core/extraction.py:189-202 | looking a found quote up again finds the same quote, at its first occurrence |
| `Evidence.EvidenceIsFirst` | packages/core/src/open_graph_core/extraction.py:189-202 | a mention that the text holds is quoted at its first occurrence, and otherwise the quote is the source of the first occurrence of its normal form |
| `EvidenceLaws.NormalizesApart` | packages/core/src/open_graph_core/extraction.py:205-230 | two texts put together normalise to their normal forms put together, exactly unless a hyphen meets a line break, line breaks after a hyphen go on, or white space goes on |
| `EvidenceLaws.SoftHyphenParts` | packages/core/src/open_graph_core/extraction.py:212-214 | a soft hyphen between two texts leaves nothing behind |
| `EvidenceLaws.SoftHyphenVanishes` | packages/core/src/open_graph_core/extraction.py:212-214 | taking a soft hyphen out changes nothing exactly when its two sides do not merge |
| `EvidenceLaws.BrokenLineParts` | packages/core/src/open_graph_core/extraction.py:215-219 | a hyphen and the line breaks behind it leave nothing behind |
| `EvidenceLaws.BrokenLineJoins` | packages/core/src/open_graph_core/extraction.py:215-219 | a word broken by a hyphen and line breaks reads as in one piece, exactly unless white space on the two sides merges |
| `EvidenceLaws.BlankRun` | packages/core/src/open_graph_core/extraction.py:220-224 | a run of white space gives one space |
| `EvidenceLaws.PlainText` | packages/core/src/open_graph_core/extraction.py:220-229 | a text without soft hyphens and white space gives the compatibility forms of its characters |
| `Evidence.ScanShift` | packages/core/src/open_graph_core/extraction.py:210-229 | the scan looks ahead only: what lies before a position just shifts the offsets |
| `Evidence.ScanFrom` | packages/core/src/open_graph_core/extraction.py:210-229 | restarting the scan at the source of a normalised character reproduces it from that character's step on |
| `Evidence.Find` | packages/core/src/open_graph_core/extraction.py:191-198 | the leftmost occurrence, or none at all |
| `Chunker.TrimLoop` | apps/api/app/chunking.py:73-80 | the two loops trim the window, and a blank window gives no piece |
| `Chunker.TrimKeeps` | apps/api/app/chunking.py:73-80 | trimming loses no character that is not white space, and the piece begins and ends on such characters |
| `Chunker.TakeWindow` | apps/api/app/chunking.py:66-83 | one turn of the window loop is one step of the specification, and the next start lies further on |
| `Chunker.SplitSegment` | apps/api/app/chunking.py:61-84 | the window loop terminates and cuts the segment as specified |
| `Chunker.SplitSegments` | apps/api/app/chunking.py:29-103 | the whole split: the chunks of all segments, or the error at the maximum |
| `Chunker.WindowsTile` | apps/api/app/chunking.py:63-83 | windows run from the start to the end of the text without a gap, each repeating the overlap of the one before, or as much of it as lets it move on |
| `Chunker.WindowEndsAtBreak` | apps/api/app/chunking.py:66-72 | a window ends at the end of the text, behind the first character of the last separator past its middle (a line break, a space or a full stop before a space), or at its full size if there is none |
| `Chunker.NothingIsLost` | apps/api/app/chunking.py:29-103 | every character of every segment that is not white space lies in a chunk of that segment |
| `Chunker.ChunksAreExact` | apps/api/app/chunking.py:38-59 | every chunk is the trimmed slice of its own segment at its recorded offsets, not blank and at most `size` long |
| `Chunker.PartsAreNumbered` | apps/api/app/chunking.py:84-103 | the chunks of a segment carry the parts 1 to count in order, and count is their number |
| `Chunker.NeverTooMany` | apps/api/app/chunking.py:36-37 | a split that does not fail has at most `maximum` chunks |
| `Chunker.TooManyIff` | apps/api/app/chunking.py:36-84 | a split fails exactly when some window starts after `maximum` chunks, and otherwise has one chunk for every window that is not blank |
| `Chunker.ChunkIsWindow` | apps/api/app/chunking.py:61-103 | the j-th chunk of a segment is its j-th window that is not blank, trimmed |
| `Chunker.FewWindows` | apps/api/app/chunking.py:66-83 | all windows of a text but the last take up a stride of min(size, size / 2 + 2) - overlap characters each |
| `Chunker.FewDefaultWindows` | apps/api/app/chunking.py:16-19 | with the default settings a text of n characters takes at most 1 + (n - 1) / 402 windows |
| `Chunker.EndsIncreaseIffNarrow` | apps/api/app/chunking.py:66-83 | window ends strictly increase on every text exactly when overlap <= size / 2 + 1 |
| `Chunker.WideOverlapStalls` | apps/api/app/chunking.py:66-83 | for every wider overlap there is a text on which two windows end at the same separator |
| `Batch.FitBatch` | packages/core/src/open_graph_core/extraction.py:576-607 | a non-empty prefix of the targets that fits the budget or is one target without references; no target goes while a reference is left, references go oldest first, and nothing goes in vain: every request tried before was too long and lost only its next part |
| `Batch.DropKeepsOrder` | packages/core/src/open_graph_core/extraction.py:586-607 | giving up the oldest reference keeps that order |
| `Batch.ParseItems` | packages/core/src/open_graph_core/extraction.py:621-635 | a reply is read exactly when its items cover the request, each chunk once, and then states exactly its items |
| `Batch.ParseBatch` | packages/core/src/open_graph_core/extraction.py:610-635 | also a bare extraction, for a request of one chunk |
| `Batch.ExtractBatch` | packages/core/src/open_graph_core/extraction.py:418-461 | whatever the provider replies, the recursion ends; the outcome is exactly one result per requested chunk, or else a transport error passed on; the results are exactly what the requests sent come to: what a readable reply offers, the extraction of its own text for a single chunk whose reply is not readable, nothing for several; and every request asks for chunks of the batch and is within the limit unless it cannot be |
| `Batch.ServeNext` | packages/core/src/open_graph_core/extraction.py:421-460 | one request for the front of what remains and those that its reply makes necessary: every chunk before the rest has exactly its results |
| `Batch.Resolve` | packages/core/src/open_graph_core/extraction.py:436-461 | one reply comes to its results, to a request per chunk, or, unreadable and for a single chunk, to the fallback |
| `Batch.ExtractEach` | packages/core/src/open_graph_core/extraction.py:447-455 | the requests of a batch that could not be read, chunk by chunk |
| `Pipeline.LocateQuotes` | apps/api/app/graph/pipeline.py:476-513 | every entity kept from an extraction is quoted exactly at its offset in the chunk |
| `Pipeline.PersistKeepsProvenance` | apps/api/app/graph/pipeline.py:446-622 | persisting a chunk keeps: every evidence row has one stored subject and quotes its chunk at its offsets, relations join distinct stored entities, and a document that cites a relation cites both its endpoints |
| `Extracted.EntitiesAreExact` | apps/api/app/graph/pipeline.py:475-531 | persisting a chunk that had not succeeded adds an entity and its evidence exactly when some entity of the extraction that the text names gives its id |
| `Extracted.EntityEvidenceIsFirst` | apps/api/app/graph/pipeline.py:476-530 | that evidence shows where the first such entity is named |
| `Extracted.RelationsAreExact` | apps/api/app/graph/pipeline.py:533-608 | it adds a relation and its evidence exactly when some relation of the extraction has its kind, its source and target words each single out one entity that the text names, these are its two different ends in this order, and its quote, or the whole text, can be read |
| `Extracted.RelationEvidenceIsFirst` | apps/api/app/graph/pipeline.py:564-607 | that evidence quotes the words of the first such relation |
| `Pipeline.CheckedQuotes` | apps/api/app/graph/pipeline.py:849-859 | consolidation evidence that passes its checks quotes a chunk of the document itself |
| `Pipeline.ConsolidateKeepsProvenance` | apps/api/app/graph/pipeline.py:718-887 | consolidation keeps the same, whether it ends or is stopped by an error part of the way |
| `Consolidated.RelationsTell` | apps/api/app/graph/pipeline.py:748-787 | the relations of a consolidation all go in exactly when each joins two different known entities of the document and quotes an extracted chunk of it; up to the first that does not, each adds its relation, with evidence if its quote checks out, and nothing else changes |
| `Consolidated.AliasesTell` | apps/api/app/graph/pipeline.py:788-837 | the aliases all go in exactly when each names a known entity by its own name, or by an alias that stands for no other entity with a quote that checks out; each that is reached and free adds the alias, with evidence and link if its quote checks out |
| `GraphWriter.Writer.PersistEntities` | apps/api/app/graph/pipeline.py:475-531 | the entity loop, on the tables in place |
| `GraphWriter.Writer.PersistRelations` | apps/api/app/graph/pipeline.py:533-608 | the relation loop, on the tables in place; what it adds is said by `Extracted.RelationsAreExact` |
| `GraphWriter.Writer.PersistChunkResult` | apps/api/app/graph/pipeline.py:446-622 | insert-if-absent of a whole chunk in place, skipped for a chunk that has succeeded; what it adds is said by `Extracted` |
| `GraphWriter.Writer.EnsureRunning` | apps/api/app/graph/pipeline.py:305-332 | the run row is created or set back to running |
| `GraphWriter.Writer.RecordFailure` | apps/api/app/graph/pipeline.py:273-279 | a run that has not succeeded is marked failed |
| `GraphWriter.Writer.ExtractDocument` | apps/api/app/graph/pipeline.py:165-282 | under any sequence of crashes, errors before and after a commit, partial replies and a failing end, an extraction amounts to an orderly history of starts, stores and failures; keys that folded before fold afterwards; it succeeds exactly when every pending chunk is answered and the end succeeds; and the run of a pending chunk of every group reached tells how far it came: succeeded with its answer recorded if that was saved, failed if an error was raised or an answer is missing, running after a crash, untouched before the mark or in a later group |
| `GraphWriter.Writer.ExtractGroup` | apps/api/app/graph/pipeline.py:227-254 | one group of requests: what becomes of the run of each of its pending chunks under every fate, no other run changes, and it goes on exactly when every chunk is answered |
| `GraphRuns.HistoriesKeepProvenance` | apps/api/app/graph/pipeline.py:446-887 | provenance holds after every history of arrivals, extraction, consolidation, deletion with its cascade, and collection |
| `GraphRuns.CollectorIsCompleteInHistory` | apps/api/app/graph/gc.py:18-186 | so in every state that writers and deletions can bring about the collector leaves none of the document's orphans, as long as its evidence is there |
| `GraphRuns.RetriesFold` | apps/api/app/graph/pipeline.py:198-282 | after any orderly history of arrivals, crashes, failures and retries, the stored entity, relation and evidence keys are exactly those of the recorded extractions of the succeeded runs |
| `GraphRuns.WrittenOnce` | apps/api/app/graph/pipeline.py:457-459 | a chunk is written once if it comes to succeed and never again after that |
| `GraphRuns.RestartFoldsIff` | apps/api/app/graph/pipeline.py:327-331 | a second worker that sets a succeeded run back to running: the keys still fold after its store exactly when the new extraction finds again every entity and every relation of the old one |
| `GraphRuns.RestartBreaksFold` | apps/api/app/graph/pipeline.py:327-331 | whatever the entity and the text that names it: the history of its one extraction folds, and starting the chunk over to find nothing breaks the fold |
| `GraphRuns.DeletionBreaksFold` | apps/api/app/documents.py:293-295 | from the same history, deleting the document leaves the entity stored without any evidence, and the fold broken |
| `GraphRuns.DeletionFoldsIff` | apps/api/app/documents.py:293-295 | the deletion as the callers perform it leaves exactly the keys of the remaining recordings if and only if another document gives everything that the deleted one gave |
| `Collector.GraphStore.CleanupDocumentGraph` | apps/api/app/graph/gc.py:18-186 | the stages of the collector in place, with its early returns |
| `Collector.OthersAreSafe` | apps/api/app/graph/gc.py:18-186 | only the document's own evidence goes, a relation goes exactly when it loses its last evidence, and nothing that other evidence or a relation still speaks for is deleted |
| `Collector.AliasesAreExact` | apps/api/app/graph/gc.py:22-61 | an alias goes exactly when the document cites its entity and no evidence is left for it, and a link goes exactly with its evidence |
| `Collector.CleanupKeepsProvenance` | apps/api/app/graph/gc.py:18-186 | no row is left pointing at a missing one, and what the writers maintain still holds |
| `Collector.CollectorIsComplete` | apps/api/app/graph/gc.py:87-186 | given provenance, an entity that the document contributed to stays exactly when it still has evidence, a relation, or a merge record to an entity that is not going |
| `Collector.OrphanRemovedIffCited` | apps/api/app/graph/gc.py:87-186 | on any tables, an entity left with nothing is removed exactly when the document itself was evidence for it: completeness rests on the writers citing endpoints |
| `Collector.UncitedEndpointsLeak` | apps/api/app/graph/gc.py:90-101 | a relation cited without its endpoints leaves them behind, since endpoints are looked up only after the relation is gone |
| `Collector.CleanupIsIdempotent` | apps/api/app/graph/gc.py:18-186 | collecting a second time changes nothing |
| `Collector.NothingCitedNothingDone` | apps/api/app/graph/gc.py:103-104 | without evidence of the document there is nothing to collect |
| `Collector.CascadeDisarmsCollector` | apps/api/app/documents.py:293-295 | when the parent rows are deleted first and runs, evidence and alias links cascade with them, the collector leaves every entity and relation in place |
| `Collector.RemovalKeepsProvenance` | apps/api/app/graph/models.py:136-137 | what the writers maintain survives that cascade |
| `Analytics.BuildIsSound` | apps/api/app/graph/analytics.py:109-113 | the graph is simple, its nodes are the entities and the ends of relations, an edge weighs what all relations between its ends weigh together, and the total is the sum of confidences |
| `Analytics.QuotientIsSound` | apps/api/app/graph/analytics.py:118-130 | the quotient has one node per community, no loops and no parallel edges, and its total weight is the weight between the communities |
| `Analytics.QuotientWeighs` | apps/api/app/graph/analytics.py:123-130 | the quotient joins two communities by what the edges between them weigh together |
| `Analytics.NextLevel` | apps/api/app/graph/analytics.py:132-143 | grouping communities partitions the entities again, and every community lies within one of its parents |
| `Analytics.AnalyzeGraph` | apps/api/app/graph/analytics.py:104-200 | for any clustering that partitions: three levels, each a partition of the entities that refines the next, every community described with a parent that holds all its members, and every entity ranked |
| `Analytics.ParentOfAnyMember` | apps/api/app/graph/analytics.py:169 | the parent of a community is the same whichever member it is read from |
| `Analytics.EdgesAreConserved` | apps/api/app/graph/analytics.py:161-163 | over a partition, internal edges plus half the external edges are all the edges |
| `Analytics.ImportanceFallsWithBreadth` | apps/api/app/graph/analytics.py:164-172 | the importance of a level is (T + cross weight) / 2T, lies between one half and one, and never increases towards a broader level |
| `Analytics.AnalysisConserves` | apps/api/app/graph/analytics.py:158-182 | the same for the numbers an analysis reports, on each of its three levels |
| `Analytics.DensityAtMostOne` | apps/api/app/graph/analytics.py:171 | density lies between 0 and 1 on a simple graph without self-loops |
| `Analytics.DensityBoundedIffLoopsAlone` | apps/api/app/graph/analytics.py:171 | on a simple graph density stays within 1 for every group exactly when there is at most one self-loop, and that on an entity without other edges |
| `Analytics.ImportancesSumToOne` | apps/api/app/graph/analytics.py:184-192 | entity importances sum to one, by weight or, without weight, evenly |
| `Analytics.ImportanceIsShare` | apps/api/app/graph/analytics.py:184-192 | an entity's importance is its share in the confidences of all relation ends; without any all are alike |
| `Analytics.TouchedIsReach` | apps/api/app/graph/analytics.py:164-172 | the edges at a community weigh what the relations with an end in it weigh together |
| `Analytics.DegreesAreConserved` | apps/api/app/graph/analytics.py:185-188 | weighted degrees sum to twice the total weight, self-loops counting twice |
| `Supersession.WalkIsExact` | apps/api/app/memory/confidence.py:157-165 | in an acyclic table the chain walk rejects exactly the links that would close a cycle |
| `Supersession.LinkClosesCycle` | apps/api/app/memory/confidence.py:136-137 | a new or overwritten link closes a cycle exactly when its target already leads back to its source |
| `Supersession.AcceptedAddsNoCycle` | apps/api/app/memory/confidence.py:157-171 | a link that the walk accepts puts no further episode on a cycle, even after a merge has made one |
| `Supersession.StepAcyclicIff` | apps/api/app/memory/confidence.py:100-173 | of all operations only a merge can break acyclicity, and it does exactly when its source already leads to its target |
| `Supersession.AcyclicIffNoBadMerge` | apps/api/app/memory/confidence.py:100-173 | a history is acyclic throughout exactly when it holds no such merge |
| `Supersession.NoMergeNoBadMerge` | apps/api/app/memory/confidence.py:143-173 | so a history without merges always is |
| `Supersession.MergesCanCycle` | apps/api/app/memory/confidence.py:112-137 | two merges of a pair into each other make a cycle |
| `Supersession.RunsStayIntact` | apps/api/app/models.py:302-304 | links always lead to existing episodes of the same project |
| `Supersession.Memory.WalkOwned` | apps/api/app/memory/api.py:318-329 | the walk of the endpoint ends on any table and reports a cycle exactly when the chain never ends or comes back to the episode |
| `Supersession.Memory.WalkAny` | apps/api/app/memory/confidence.py:156-165 | the same for the walk of the feedback operation |
| `Supersession.Memory.SupersedeEpisode` | apps/api/app/memory/api.py:312-332 | all answers of the endpoint and the one row it changes |
| `Supersession.Memory.SupersedeCurrent` | apps/api/app/memory/confidence.py:143-173 | all answers of the operation and the one row it changes, without a status check |
| `Supersession.Memory.MergeMemories` | apps/api/app/memory/confidence.py:100-140 | all answers of a merge and the link it sets, without a cycle check |
| `Supersession.Memory.HardDeleteEpisode` | apps/api/app/memory/api.py:419-447 | missing and held episodes are refused; a deleted episode takes the links to it along |
| `Patterns.PatternTable.SupersedePattern` | apps/api/app/memory/api.py:357-404 | all answers for patterns; the cycle and broken-chain answers never occur |
| `Patterns.PatternTable.RecordOutcome` | apps/api/app/memory/api.py:202-232 | the pattern of an outcome is created if need be and credited; its link stays, and it is promoted exactly when its counters then deserve it |
| `Patterns.VerifierWeightIsBest` | apps/api/app/memory/service.py:44-58 | an outcome weighs what its best passed verifier weighs, and nothing without one |
| `Patterns.ReportsAddUp` | apps/api/app/memory/service.py:46-51 | five self-reports weigh as much as one CI run, and three as much as a test or build |
| `Patterns.PartialsAreHalves` | apps/api/app/memory/api.py:225-231 | in every history two partial successes leave what a success and a failure leave |
| `Patterns.PatternTable.FeedbackPattern` | apps/api/app/memory/api.py:336-353 | feedback asks for the pattern and moves its successes by a tenth, not below zero, and nothing else; it is promoted exactly when its counters then deserve it |
| `Patterns.LinksAreFinal` | apps/api/app/memory/api.py:380-402 | in every history pattern links are acyclic and a link once written never changes |
| `Patterns.PromotedIffDeserved` | apps/api/app/memory/service.py:61-69 | a pattern is judged worth promoting exactly with three verified outcomes and 10 min(total, successes) >= 7 total + 4 |
| `Patterns.FeedbackPromotesIff` | apps/api/app/memory/api.py:349-351 | feedback leaves a pattern, superseded or not, promoted exactly when its counters meet that guard after the score |
| `Patterns.SupersededPromotedIff` | apps/api/app/memory/api.py:226-402 | in every history a superseded pattern is promoted exactly when it was scored after its supersession and the counters of its last score meet the guard, against the message at line 381 |
| `Patterns.SupersededCanBePromoted` | apps/api/app/memory/api.py:336-402 | three successes under CI, a supersession and neutral feedback end in a superseded pattern that is promoted, at confidence 4/5 |
| `RankFusion.Fuse` | apps/api/app/retrieval.py:326-393 | the best `top_k` ids in order, each with its merged chunk, its share of the best possible score and its origin |
| `RankFusion.OrderIds` | apps/api/app/retrieval.py:357-370 | sorting by the scores that the rank tables give is the order that the ranks define |
| `RankFusion.ScoreInRange` | apps/api/app/retrieval.py:357-378 | for non-negative weights the share lies in [0, 1] without the clamp, and is 1 exactly for a chunk that every list of positive weight ranks first |
| `RankFusion.BetterComesFirst` | apps/api/app/retrieval.py:359-370 | a chunk ranked no worse by every list holding the other, and better in one of positive weight, comes first |
| `RankFusion.OrderHolds` | apps/api/app/retrieval.py:357-370 | the order is sorted and holds exactly the ids of the two lists |
| `RankFusion.OrderIsUnique` | apps/api/app/retrieval.py:357-370 | whatever order the id set is iterated in, the result is the same |
| `RankFusion.SmallerTopIsPrefix` | apps/api/app/retrieval.py:370 | the result for a smaller `top_k` is a prefix of the result for a larger one |
| `RankFusion.StoreIs` | apps/api/app/retrieval.py:341-355 | over a graph list without repeats an id's chunk is the vector chunk, the graph chunk, or the two merged |
| `RankFusion.StoreKeeps` | apps/api/app/retrieval.py:337-355 | with repeats in either list: the chunk of an id keeps identity, body and vector score of the last vector chunk, or else of the first graph chunk, takes the graph score of the last graph chunk, and has every entity and relation of all of them |
| `RankFusion.DedupKeepsOrder` | apps/api/app/retrieval.py:352-353 | first occurrences keep their order |
| `RankFusion.DedupIs` | apps/api/app/retrieval.py:352-353 | merging keeps every entity and relation once |
| `Paging.BuildPage` | apps/api/app/graph/service.py:613-703 | a page is the first `limit` supported rows behind the cursor, and a next cursor is given exactly when there are more |
| `Paging.RestResumes` | apps/api/app/graph/service.py:637-639 | behind the cursor of a page lies exactly what the page left over |
| `Paging.Extends` | apps/api/app/graph/service.py:706-746 | however the table changed, another page keeps the ids strictly increasing, every row read, and no lasting row missing up to the cursor |
| `Paging.LoadAll` | apps/web/src/pages/GraphPage.tsx:498-535 | following the cursors ends, with strictly increasing ids; a row supported on every request is there unless the cap was reached before it; on a fixed table the result is the sorted table, up to the cap |
| `Paging.LoadAllExplorerNodes` | apps/web/src/pages/GraphPage.tsx:498-515 | the same with pages of 3000 and a cap of 5000, in at most two requests |
| `Paging.LoadAllExplorerRelations` | apps/web/src/pages/GraphPage.tsx:517-535 | the same with pages of 5000 and a cap of 15000, in at most three requests |

## Left out

- JobStore: dispatch and reconciliation take up to 100 rows in one query; the model treats one job at a time. The
  check that a job and its document share a scope, and the error texts, are not modelled.
- JobProtocol: the broker is modelled by what one message id per job asks of it: a repeated message is dropped while
  an earlier one waits or is executed. When it loses a message, gives up an execution or delivers an indexing message
  again is arbitrary, as is when a running indexing job counts as stale.
- Walk: the tables do not change during one walk, as within one database snapshot.
- Traverse: how names and chunks are resolved to candidate entities, and the closing query for evidence rows.
- Evidence: full Unicode normalisation of a whole string; the code normalises character by character, and so does the model.
- Chunker: chunk ids, token counts and the metadata copied from the segment.
- Batch: the JSON text and schema of requests and replies; a reply is already parsed or marked unreadable, and the
  length of a request is any function of its contexts.
- Pipeline: confidences, review states and counters of the written rows; the prompt and the consolidation request.
- GraphWriter: rows of other datasets; every query is scoped to one dataset and the model holds one. The commit that
  saves a group is atomic, so a crash or an error within it is one before it.
- GraphRuns.RetriesFold: assumes one worker at a time and no consolidation or deletion; `GraphRuns.RestartFoldsIff` and
  `GraphRuns.DeletionFoldsIff` show why.
- Collector: preservation of all merge history between survivors is not claimed; a merge record between two entities
  that both stay protected may be dropped.
- Analytics: the clustering algorithm itself, the degree maps and memberships as they are stored, the snapshot hash and
  the stale flag of the explorer, the limits of 5000 entities and 20000 relations, and floating-point rounding.
- Supersession: contents, versions and confidences of episodes; what the legal hold check finds is a parameter.
- Patterns: pattern keys belong to one project; which episode an outcome finalises, and the checks on that episode.
- RankFusion.Fuse: rounding to four digits and the other columns of a chunk are not modelled; the rank offset is
  non-negative.
- Paging: the analytics columns joined to a node; the two page builders run one query over different tables, modelled once.
- The graph search wrapper that removes duplicates (`apps/api/app/retrieval.py:72-76`): its comment promises the best
  path, but the dictionary keeps the last one.
- Parsers, regular-expression extractors, embeddings, cosine and full-text search, export and import, authentication,
  the user interface apart from the two loading loops, and plain create, read, update and delete endpoints.
