# Verified models of the agentlake pipeline

Dafny models of the parts of the repository whose correctness rests on order, state or arithmetic: trace
contexts and the tree rebuilt from their events, the at-least-once change lander, resumable ingest and its two
indexes, evaluation runs with their budget and their gate, the published statistics, and three bounded loops.
Code that changes state step by step is modelled as classes and methods with loops, proved against functions on
values; what the code is for is then proved about those functions, for every input, run or interleaving.

`dafny verify dfyconfig.toml` checks everything.

## How it is organised

| file | component |
|---|---|
| Telemetry, ContextMachine, Reports | context variables and tokens of the SDK, as objects and as interleaved steps; what events say |
| TraceTree, TraceForest | the tree builder over a heap of nodes, and the forest it amounts to |
| SpanCounts, TraceProtocol, TraceShape, ProgramNesting, ProgramTree | what the builder makes of the events the SDK emits |
| CdcLand, Changelog, Resolution, CdcReplay, LandedChanges | the lander's protocol, a database's changelog, and resolving what landed back to the database |
| Chunking, Sectioning, Bm25, Ingest, SafeSteps, KilledDocuments, IngestRuns, IndexTexts, StillRuns, IngestIndex, IngestProgram | chunks, the sparse index, one ingest run, histories of killed and completed runs |
| Fusion | reciprocal rank fusion and hybrid retrieval |
| Gateway, AgentLoop, TurnFacts | what model calls are billed, and the bounded loop that makes them |
| Metrics, MetricFacts, OrderFree, Gate, Budget, EvalRun, ScoringFacts, Runner | scoring, the run, its stored rows, its cap and ledger |
| Weights, Disagreement, CategorySums, Agreement, KappaLaws, Distances, KappaBounds | Cohen's kappa: its definition, the matrix program, its laws |
| Moments, RealAlgebra | deviations, variances, and facts about a few reals |
| Sampler, BraceScan | the stratified sample and the brace scanner |
| Aggregates, Sorting, Rounding, Texts, Wrappers | shared sequences, sorting, rounding, strings, options |

Behaviour outside the code is an input to the theorems, never an assumption: the interleaving of asyncio tasks,
what raises and which emissions fail (`ContextMachine.Op`); deliveries, appends, crashes and recreated tables
(`CdcLand.Happening`, `CdcLand.Action`); the step at which an ingest is killed (`Ingest.Attempt`); every reply of
the gateway, billed or lost (`Gateway.Script`); what tools return, which cost polls succeed and what other clients
spend (`EvalRun.World`); every draw of the shuffle (`Sampler.Draws`). Hypotheses that the theorems do need are
named predicates: `HonestRun`, `Fixed`, `CrashFree`, `Reliable`, `Climbing`, `Priced`, `DistinctKeys`.

Money, scores and statistics are exact reals. Ids that the code draws at random are fresh numbers; ids that it
hashes are what was hashed. A square root is never taken: a correlation is a covariance and two spreads, and what
is said of its value is said of every number whose product with the roots is the covariance.

## Where the code and what is said of it differ

- `cohens_kappa` says it is undefined when one rater used a single category. It then returns 0
  (`KappaLaws.ConstantRaterScoresZero`); it is undefined only when both raters used the same single one
  (`KappaLaws.KappaIsUndefinedIff`), and its last `return None` is never reached.
- `_ingest` says a run killed mid-document leaves the content hash unset. Every hash stays as it was
  (`Ingest.KilledDocumentKeepsItsHash`), so on a re-ingest the old one remains; a document put back to its old
  content is then taken for current. If it was exact before, it still is only if no step had been taken or the other
  version had as many chunks: a longer one leaves stray chunks, a shorter one takes chunks away, and no later run of
  the old content repairs either (`IngestRuns.RevertedHistory`). One more killed run of another content repairs
  strays exactly if it took a step and that content has just as many chunks as the old one, lost chunks exactly if it
  put their very texts and no more, and a wrong text under an old number never
  (`IngestRuns.RevertedDocumentIsExactIff`).
- Chunk ids are positional, so new content under an old id is not stored: a document whose content changed is
  marked current with old text wherever the two differ at a position (`Ingest.NewContentIsExactIff`).
- The sparse index is saved only at the end of a run. A run killed earlier leaves the saved index as it was, without
  the documents it marked or with their old versions, and no later run puts that right while the content stays
  (`IngestIndex.CrashLeavesTheIndexBehind`, `IngestIndex.BehindForGood`, `IngestIndex.IndexCatchesUpIff`).
- The resolution of the landed table promises the database's current rows. It shows exactly the keys that no TRUNCATE
  took since they were last inserted; a truncated row keeps resolving as alive
  (`CdcReplay.ResolutionRecoversTheDatabase`, `CdcReplay.LostIffTruncatedLast`, `CdcReplay.TruncateIsNotRecovered`).
- A document key joins project, version and path with colons; another source has the same key exactly if one of the
  three holds a colon (`Chunking.DocKeyIsSharedIff`).
- A chunk's breadcrumb is the chain of enclosing headings exactly when every heading is deeper than all open ones
  or has all shallower levels open (`Chunking.BreadcrumbsAreChainsIff`); skipping a level can show a heading that
  has ended (`Chunking.SkippedLevelMisleads`).
- `metrics_from_rows` promises the arithmetic of the run's own summary. The cost column holds millionths of a
  dollar, so the mean cost agrees to within half a millionth (`Gate.MeanCostDriftIsBounded`). It agrees wherever a run
  is cut short exactly if every cost is a whole number of millionths (`Gate.MeanCostsSurviveEveryCutIff`); a single
  mean can agree without, when roundings cancel (`Gate.RoundingsCanCancel`). Costs are whole exactly while prices are
  whole dollars per million tokens (`Gate.CostsAreWholeIffPricesAre`), as all those of services/gateway/models.yaml
  are, and then every run's mean survives (`EvalRun.WholePricedRunKeepsItsMean`). The upsert drops an outcome whenever an example
  key repeats (`Gate.RowsAreLostIffKeysRepeat`).
- A failed cost poll counts as nothing ever billed: as the last poll it hides the whole run, as the first it
  charges the run for all earlier traffic (`EvalRun.GuardSeesTheTruthIff`). While polls fail the cap is not enforced:
  it can be overshot by all that was billed since the last poll that succeeded
  (`EvalRun.FailedPollsWidenTheOvershoot`).
- "Never raises" holds of `score_example` up to the judge, which is called outside the `try`: a raising judge ends
  the run without a summary (`EvalRun.RunDiesAtTheFirstRaise`).
- A chunk found by both searches is sure to come before one found by only one exactly up to `k = 12`
  (`Fusion.AgreementAlwaysWinsIff`, `Fusion.AgreementCanLose`).
- A refused landing run says that the table was recreated. It also refuses when all that was landed so far was skipped:
  the table is empty, an offset is committed, and nothing is missing (`LandedChanges.GuardCanRefuseForNothing`).
- `--force` (scripts/cdc_land.py:626) is parsed and never read, so the guard is modelled as unconditional.

## Model

| member | source | states |
|---|---|---|
| Telemetry.Context.Set | services/sdk/telemetry.py:290-292 | Sets one variable of one context and no other, and hands back an unused token owned by that context that remembers the value found. |
| Telemetry.Context.Reset | services/sdk/telemetry.py:296-298 | An unused token of this context restores exactly the remembered value, unset included, and is used up; other variables stay. |
| Telemetry.Emitter.Emit | services/sdk/telemetry.py:440-454 | Every event is attempted once; a failing emitter delivers nothing and raises nothing. |
| Telemetry.EnterSpan | services/sdk/telemetry.py:346-390 | The span record, the variables inside and the ids drawn are those of the opening rule (inherit the trace in scope, else adopt an explicit one, else mint); the tokens held suffice to undo exactly what was set. |
| Telemetry.ExitSpan | services/sdk/telemetry.py:404-412 | Resetting the held tokens brings back the variables found on entry, whatever the body did in between. |
| Telemetry.RunSession | services/sdk/telemetry.py:276-298 | A session block run with tokens behaves as lexical scoping and leaves the context as found, raised or not. |
| Telemetry.Run | services/sdk/telemetry.py:276-298 | Running any program of nested sessions, spans, raises and swallowed raises by setting and resetting variables attempts exactly the events that pure lexical scoping prescribes, in order, raises exactly when it does, and leaves all three variables as found. |
| Reports.EventsTellTheirBlocks | services/sdk/telemetry.py:390-413 | For every program, told from its blocks alone: it raises exactly if some block raises past every guard, and the emitted events are, in closing order, one for each span block that ran, with that block's kind, time, cost, tokens and named session; the status is "error" exactly if the body raised or set it, else what was set, else "ok". |
| ContextMachine.ContextsStayIntact | services/sdk/telemetry.py:287-298 | In every interleaving of tasks: trace set exactly when parent is; the parent is the innermost open span or what the context was copied with; leaving any block restores what its entry found. |
| ContextMachine.TasksAreIsolated | services/sdk/telemetry.py:29-45 | However long other tasks step, a task that takes no step keeps its variables and its open blocks. |
| ContextMachine.SpawnedContextIsKept | services/sdk/telemetry.py:41-45 | In every interleaving a spawned task's parent, outside its own blocks, is for good the span that was open in its spawner at the spawn, even after the spawner left it. |
| TraceProtocol.EverySpanEmitsOnce | services/sdk/telemetry.py:392-413 | After any run, each span ever opened is open in exactly one block and has emitted nothing, or is closed and has emitted exactly once. |
| Reports.EventsTellTheirSteps | services/sdk/telemetry.py:390-413 | In every interleaving each event tells the two steps of its span: the ids it was opened with, the kind and time given on opening, and what its closing left and whether its body raised. |
| Reports.TraceTotalsAreItsSteps | services/mcp_server/tools.py:325-341 | The totals reported for a whole trace, in any row order, are those of its closing steps: one error for each body that raised or set another status than "ok", the tokens noted, and the costs noted to within half a millionth. |
| Reports.CountsAreOfRows | services/mcp_server/tools.py:285-341 | Orphans are the rows whose named parent is in no row; roots are those and the rows that name none; truncation is assumed from 500 rows on. |
| TraceProtocol.SpanAttaches | services/sdk/telemetry.py:363-374 | With a trace in scope a new span joins it under the innermost open span whatever explicit context is passed; with none it adopts the passed one, or mints. Its session is the one in scope, or a new one. |
| TraceProtocol.AnySubsetRebuilds | services/mcp_server/tools.py:266-296 | For any subset of a run's events in any order, the parent links are acyclic, the rebuilt forest holds every surviving span exactly once, and the reported cost is that of the forest. |
| TraceProtocol.TurnIsOneTree | services/agent/mcp_client.py:62-67 | A turn spread over processes joined only by the trace contexts they send, once no block of it is open and all its events are delivered, rebuilds to one root, the span that minted the trace, with no orphan and every span once, in any interleaving and row order. |
| TraceShape.TurnHasTheOpenedShape | services/sdk/telemetry.py:363-374 | In that tree, under each span hang exactly the spans whose opening step saw it as parent (the innermost open span of its task, or with no trace in scope the parent it was passed), each once, in any interleaving and row order. |
| ProgramTree.ProgramRebuilds | services/mcp_server/tools.py:266-296 | For every program of nested spans in one trace, with exceptions, inner sessions and nested spans that pass a trace context which nesting overrides: the forest rebuilt from its emitted events is the nesting of the blocks that ran, with one root and no orphan. |
| ProgramTree.ProgramRebuildsInAnyOrder | services/mcp_server/tools.py:272-275 | The same events in any order rebuild the same tree up to the order of siblings: same root, no orphan, and under each span the spans its block directly opened. |
| TraceTree.BuildTree | services/mcp_server/tools.py:266-296 | For every list of rows, repeated ids included: each node's children list, the roots list and the orphan marks and count on the heap are those of rows that name it, rows claimed by none, and rows whose parent is absent, in row order. |
| TraceForest.ForestHoldsEveryRowOnce | services/mcp_server/tools.py:276-280 | With acyclic parent links, unfolding the children from the roots meets every row exactly once. |
| TraceForest.CompleteIffAcyclic | services/mcp_server/tools.py:285-296 | Every row is reachable from a root exactly when the parent links have no cycle. |
| TraceForest.CyclicRowsAreLost | services/mcp_server/tools.py:285-296 | Two spans that name each other as parent appear nowhere: no root and no orphan from two rows. |
| TraceForest.RowOrderOnlyOrdersSiblings | services/mcp_server/tools.py:272-275 | Permuting the rows permutes roots, orphans and each children list, and changes nothing else. |
| TraceForest.TotalsCoverTheForest | services/mcp_server/tools.py:325-341 | The span count, cost, token and error totals taken over rows are those of the forest shown. |
| CdcLand.UnrefusedRunStartsCovered | scripts/cdc_land.py:420-441 | After any history of appends, landing runs killed anywhere, recreated tables and group resets, a run the guard lets through starts with every row-bearing record below each committed offset in the table. |
| CdcLand.CommitsNeverPassAMissingRow | scripts/cdc_land.py:478-494 | Cut such a run after any number of happenings: no committed offset has passed a row that is not in the table. |
| CdcLand.DrainedRunCoversTheTopic | scripts/cdc_land.py:451-499 | A finished run that read every partition to its end has the whole topic in the table and committed; rows landed are the table's gain; landed plus skipped is everything polled. |
| CdcLand.Lander.Await | scripts/cdc_land.py:482-485 | While an insert or commit is in flight others only append; it then completes or the process is gone, as in the machine. |
| CdcLand.Lander.Handle | scripts/cdc_land.py:460-485 | One message moves the program as it moves the machine: parse, count or skip, and at a full batch insert, then commit. |
| CdcLand.Lander.Finish | scripts/cdc_land.py:487-494 | The tail inserts what is pending and commits if anything was read, as in the machine. |
| CdcLand.Lander.CmdLand | scripts/cdc_land.py:418-499 | The program refines the machine for every sequence of happenings: refused exactly when the table is empty and an offset is committed, and otherwise the same topic, table, offsets and counts. |
| LandedChanges.DrainedTableTellsTheChanges | scripts/cdc_land.py:248-299 | End to end, told from the changes of the database: after any crashes a drained run leaves a row for each accepted change of a row, and each row is one of those, with its operation, key, log position, partition and offset, and its new image or, for a delete, the image before. |
| LandedChanges.RowsTellTheChanges | scripts/cdc_land.py:269-299 | No row of a fully landed table tells anything but one accepted change. |
| LandedChanges.CountsAreTheChanges | scripts/cdc_land.py:460-477 | A run from offset 0 that read the whole changelog counts one landed row per accepted change under that change's operation, one tombstone per delete, one skipped record per TRUNCATE and per message, and nothing else. |
| LandedChanges.BatchesAreFull | scripts/cdc_land.py:478-494 | At every point of every run fewer rows are pending than a batch; an insert while polling goes on is of exactly a full batch, the last one of what is left. |
| LandedChanges.GuardCanRefuseForNothing | scripts/cdc_land.py:428-441 | One tombstone landed: the table is empty, the offset committed, nothing is missing, and the next run is refused. |
| LandedChanges.GuardLetsThrough | scripts/cdc_land.py:420-441 | In any history a run is let through while the table has a row, and after a reset of the group. |
| CdcReplay.ReplayIsFaithful | scripts/cdc_land.py:277-279 | After any changes to the database, the last record of each key tells whether and how its row lives, and records of one key lie in one partition in the order the resolution sorts by. |
| CdcReplay.ResolutionRecoversTheDatabase | dbt/models/staging/stg_prompt_versions.sql:75-82 | For any history of captures, inserts, updates, deletes and TRUNCATEs and any table in which the changelog landed, records repeated however often: the row ranked first for a key is its live row, or its deletion with the last image, and a key that never was has none, exactly if no TRUNCATE took the key; one that was taken shows its last image as alive. |
| CdcReplay.LandedTableRecoversTheDatabase | scripts/cdc_land.py:451-494 | End to end: after any crashes, once a run has drained the topic of a database's changelog, the resolution shows the database for exactly the keys no TRUNCATE took. |
| CdcReplay.LostIffTruncatedLast | scripts/cdc_land.py:269-271 | A key is one of those exactly if some TRUNCATE found its row and the row was not there after it or later. |
| CdcReplay.TruncateIsNotRecovered | scripts/cdc_land.py:269-271 | Insert a row and truncate: the table is empty, and the row resolves as alive. |
| Chunking.Window | services/rag/chunk.py:122-131 | Ends whenever the text fits or the overlap is less than the window, with the windows the step gives. |
| Chunking.WindowsRestoreTheText | services/rag/chunk.py:122-131 | No window is too long, and dropping the overlap from each but the first and joining restores the section. |
| Chunking.SplitMarkdownSections | services/rag/chunk.py:49-71 | The loop's stack, pending lines and sections, flushed in place, are those of the lines read so far. |
| Sectioning.SectionsAreStretches | services/rag/chunk.py:49-71 | The sections are, one each and in order, the stretches of body lines between headings in which anything is written: the lines joined, without the white space around them, under the titles of the stack where they stand, or "(intro)". |
| Sectioning.SectionsKeepTheText | services/rag/chunk.py:49-71 | The sections together hold everything visible in the body lines, once and in order, and nothing else. |
| Sectioning.SectionPathsAreChains | services/rag/chunk.py:57-58 | If headings never skip a level, a section's path is the titles of the headings that enclose it. |
| Sectioning.WindowPlaces | services/rag/chunk.py:122-131 | Each window begins a step after the one before, and is as long as a window may be or as the text goes. |
| Sectioning.WindowCount | services/rag/chunk.py:122-131 | There are just enough windows to begin one in every step of the text. |
| Chunking.BreadcrumbsAreChainsIff | services/rag/chunk.py:67-69 | The heading stack equals the chain of enclosing headings at every point of a document exactly when each heading fits what is open where it stands. |
| Chunking.BreadcrumbsOfOrderlyHeadings | services/rag/chunk.py:49-71 | If headings never skip a level, every breadcrumb is exactly the chain of enclosing headings. |
| Chunking.SkippedLevelMisleads | services/rag/chunk.py:67-69 | After levels 1 and 3, a second level 3 is shown under the first. |
| Chunking.ChunksFromSections | services/rag/chunk.py:134-161 | The nested loops end whenever every section fits a window or the overlap is less than it, and produce the windows of every section in order under one running index. |
| Sectioning.ChunksHoldTheSections | services/rag/chunk.py:134-161 | Cut at the right places the chunks are the sections one after another: under the section's path and the project, none too long, and without their overlaps the section's text again. |
| Chunking.ChunksAreNumbered | services/rag/chunk.py:145-160 | Chunk indices are 0 to n-1 in order, and each id names its document and index. |
| Chunking.DocIdsAreFaithful | services/rag/chunk.py:33-35 | Two sources whose project and version hold no colon share a document key only if they are the same. |
| Chunking.ColonsCanCollide | services/rag/chunk.py:33-35 | With a colon in the project, different sources can share one key. |
| Chunking.DocKeyIsSharedIff | services/rag/chunk.py:33-35 | Some other source has the same key exactly if there is a colon in the project, the version or the path. |
| Bm25.BM25Index.ReplaceChunks | services/rag/bm25.py:57-65 | Removes the document's old entries and puts the new ones, old keys keeping their place; the cached scorer is dropped. |
| Bm25.ReplacementHoldsTheChunks | services/rag/bm25.py:57-65 | After a replacement each new chunk has its own project and text, and every other entry what it had. |
| Bm25.CorpusIsTheTexts | services/rag/bm25.py:67-74 | What is scored is the entries' texts, in the order of the entries. |
| Bm25.BM25Index.EnsureBuilt | services/rag/bm25.py:67-74 | Afterwards a scorer exists exactly for a nonempty index, and is the one the current entries give. |
| Bm25.BM25Index.Search | services/rag/bm25.py:76-88 | Whatever came before, the cached scorer returns what an index rebuilt from the current entries would, ties included, and no entry changes. |
| Bm25.HitsAreWanted | services/rag/bm25.py:82-86 | Candidates are exactly the current chunks of the project, each with its own document's score. |
| Bm25.SearchReturnsTheBest | services/rag/bm25.py:87-88 | The result is the front of all candidates in descending score, equal scores in insertion order. |
| Bm25.ReplacementKeepsUnionIff | services/rag/bm25.py:57-64 | Replacing one document's chunks keeps the entries equal to the union of the documents' ids exactly when it takes no id that another document shares and the new version lacks. |
| Bm25.EntriesAreDocuments | services/rag/bm25.py:57-105 | After any replacements, searches, saves and loads with ids of one document each, the entries are the disjoint union of the documents' ids. |
| Ingest.MarkdownChunkerNumbers | services/rag/chunk.py:164-181 | The markdown chunker numbers its chunks as the ingest theorems ask. |
| Ingest.DocSettles | services/rag/cli.py:82-123 | Working through a document that is not current makes its rows one per chunk, keeps the text of chunks that were there, takes the new text of those that were not, makes its hash current, and touches no other document. |
| Ingest.NewContentIsExactIff | services/rag/cli.py:91-123 | After new content is ingested the store holds its chunking exactly when no chunk already there under the same number had another text; the hash is current either way and no later run looks again. |
| Ingest.KilledDocumentKeepsItsHash | services/rag/cli.py:54-60 | Killed at any step within a document, a run leaves every stored hash as it was. |
| KilledDocuments.DocPlanSettlesPartly | services/rag/cli.py:91-123 | Over any store, after any number of one document's steps: as many of its missing chunks as the batches put so far hold are in, in order; rows past its end are gone once all are in and a step more was taken; texts that were there stay, and every other row does. |
| IngestRuns.KilledDocumentGrows | services/rag/cli.py:91-123 | On rows without gaps that is a function of the texts alone: cut to the new length at the first step, or lengthened batch by batch; so killed ingests compose. |
| IngestRuns.DocumentsHaveNoGaps | services/rag/cli.py:76-123 | In every history of runs, killed or not, over any contents, the rows of each document are numbered from 0 without gaps. |
| IngestRuns.RevertedDocumentIsExactIff | services/rag/cli.py:78-80 | Whatever rows without gaps it held, whatever content was being put in and at whatever step the run was killed: a document put back to its old content is current and skipped, and holds its chunking if and only if the texts say so: exact rows with no step taken or an equal number of chunks, strays with a step of a version of just the right length, lost chunks with their very texts put and no more, and a wrong text in no way. |
| IngestRuns.RevertedHistory | services/rag/cli.py:70-125 | The same from an empty store, over three runs; running the old content again, to its end or not, repairs nothing. |
| Ingest.BatchesPutAll | services/rag/cli.py:100-103 | Batches of any positive size together put what one batch would. |
| IngestRuns.CurrentDocumentsAreExact | services/rag/cli.py:76-123 | From an empty store, while contents do not change, after any runs killed at any step: a document whose hash is current holds exactly its chunking, ids and texts. |
| IngestRuns.OneCompletedRunSuffices | services/rag/cli.py:70-125 | After any killed runs, one completed run leaves every document it is given that has chunks current and exact. |
| IngestRuns.PresentChunksAreNotEmbedded | services/rag/cli.py:91-102 | No chunk in the store when a run starts is embedded by it, killed or not, however contents changed before, if the run names each document once (or if contents never change). |
| IngestIndex.SavedIndexMatchesTheStore | services/rag/cli.py:111-125 | Across runs that all complete, however contents change, the saved index has an entry for exactly the chunks in the store. |
| IngestIndex.SavedTextsMatchTheStore | services/rag/cli.py:111-125 | While contents do not change, a chunk that both the saved index and the store hold has the same text in both, even after runs that were killed. |
| IngestIndex.IndexCatchesUpIff | services/rag/cli.py:78-125 | A completed run indexes exactly the documents whose hash was not current; for the others the loaded index has the last word. |
| IngestIndex.CrashLeavesTheIndexBehind | services/rag/cli.py:115-125 | A run killed at any step before its end leaves the saved index exactly as it was, while every file it had marked by then is current in the store. |
| IngestIndex.KilledRunKeepsIndexIff | services/rag/cli.py:91-125 | After runs that completed, a run that names each document once and does not complete leaves the saved index with exactly the ids of the store if and only if none of the steps it took put a chunk or dropped one. |
| IngestIndex.BehindForGood | services/rag/cli.py:78-80 | While a current document's content stays the same, no sequence of runs, killed or completed, changes what the saved index lists for it, be it nothing, an old version or the right one. |
| IngestProgram.CorpusStore.UpsertChunks | services/rag/store.py:162-196 | Inserts each chunk, or replaces the text of the row with its id and keeps that row's document. |
| IngestProgram.PutMissing | services/rag/cli.py:100-102 | The batch loop embeds and stores exactly the missing chunks. |
| IngestProgram.IngestFile | services/rag/cli.py:76-123 | One document moves store, index and embedder by exactly the steps of its plan, and is skipped exactly when its hash is current. |
| IngestProgram.RunIngest | services/rag/cli.py:43-132 | A run that is not killed does exactly what its plan says, saves the index it ends with, embeds exactly what the plan puts, and reports the sizes of both indexes. |
| Fusion.ReciprocalRankFusion | services/rag/fusion.py:15-28 | The loops over a score dictionary and one stable sort give each ranked id its summed worth, best first, equal scores by first appearance. |
| Fusion.FusedFacts | services/rag/fusion.py:15-28 | Every ranked id comes exactly once, with its score, in descending score, and nothing else comes. |
| Fusion.DominanceWins | services/rag/fusion.py:1-8 | In duplicate-free rankings, an id no worse in every list scores at least as much, and strictly more if better in one. |
| Fusion.BetterComesFirst | services/rag/fusion.py:28-28 | The id with the higher score comes first. |
| Fusion.TiesByFirstAppearance | services/rag/fusion.py:28-28 | Ids of equal score come in the order in which the lists, one after another, first name them. |
| Fusion.SwapKeepsScores | services/rag/fusion.py:24-27 | Swapping the two lists changes no score. |
| Fusion.AgreementWins | services/rag/retrieve.py:115-123 | With the default constant and pool, for k up to 12 every id found by both searches comes before every id found by one. |
| Fusion.AgreementCanLose | services/rag/retrieve.py:46-47 | From k = 13 on there are candidate lists whose fusion puts an id found by one search before an id found by both. |
| Fusion.AgreementAlwaysWinsIff | services/rag/retrieve.py:46-47 | Agreement wins over all candidate lists exactly for k up to 12. |
| Fusion.RetrieveHybrid | services/rag/retrieve.py:115-123 | Returns the first k of the fusion of both searches over the widened pool. |
| Fusion.SparseHitsAreCandidates | services/rag/retrieve.py:78-81 | What the sparse index returns has no duplicates and fits the pool. |
| Gateway.GatewayStats.RecordSuccess | services/gateway/stats.py:31-43 | Totals and the model's own counters stay those of the whole history of calls, and of the model's part of it. |
| Gateway.GatewayStats.RecordError | services/gateway/stats.py:45-48 | A refused call counts as a request and an error, in total and for its model, and costs nothing. |
| Gateway.TallySums | services/gateway/stats.py:31-48 | The counters of a history are its calls that reached the gateway and the sums of their own prompt tokens, completion tokens and bills. |
| AgentLoop.Retrieval.Collect | services/agent/loop.py:149-180 | Appends one numbered search, and the well-formed results of an observation under that number, in place. |
| AgentLoop.ExecuteTools | services/agent/loop.py:232-255 | Every use is executed in order and answered under its own id; the retrieval lists grow by exactly the searches among them. |
| AgentLoop.RunTurn | services/agent/loop.py:183-304 | For any replies, lost and refused ones included, and any tools: the turn is the one the specification names, makes that many calls, and is billed what they are. |
| AgentLoop.TurnIsBounded | services/agent/loop.py:210-287 | At most max_steps + 1 model calls; cost, tokens and final tokens are those of the calls made; truncated exactly when every reply within the budget asked for tools. |
| AgentLoop.EveryUseIsAnswered | services/agent/loop.py:225-255 | Every assistant message with tool uses is followed at once by a message answering exactly those ids in order, and no other such message occurs. |
| AgentLoop.RetrievalIsAccounted | services/agent/loop.py:149-180 | Retrieved chunks carry nondecreasing call indices below the number of searches, searches are numbered from 0 and counted among the tools called, and a turn that never searched retrieved nothing. |
| TurnFacts.TurnReportsWhatItFound | services/agent/loop.py:149-180 | What a returned turn reports as retrieved is, one for one and in order, the results its searches observed: same chunk, source, section and score, the text or its first 2000 characters, and as call index the number of searches before. |
| TurnFacts.SearchesAreReported | services/agent/loop.py:162-164 | Each search is reported with what it asked for. |
| TurnFacts.AnswersShowTheirCalls | services/agent/loop.py:232-255 | Each use is answered under its id with what its own call showed. |
| TurnFacts.TurnAsksWhileToolsAreWanted | services/agent/loop.py:210-287 | A turn asks on exactly while replies ask for tools; the conversation begins with the question and shows the replies read, in order. |
| TurnFacts.AnswerIsTheLastText | services/agent/loop.py:145-146 | The answer is all that is visible in the last reply's text blocks, in order, with no white space around it; a truncated turn with nothing visible says so instead. |
| TurnFacts.TurnTotalsAreTheGateways | services/agent/loop.py:222-223 | The cost and tokens a returned turn reports are what the gateway counts for its calls. |
| Metrics.HitIsUndefinedIffUnsearched | eval/metrics.py:62-84 | When nothing is retrieved without searching, a hit is undefined exactly without a search, and a hit implies a hit by any call. |
| Metrics.HitScoresTheFirstSearch | eval/metrics.py:33-59 | A first search that found something is never undefined: it is a hit exactly when one of its own first k chunks comes from an expected source, whatever later searches found. |
| Metrics.HitRatesFactor | eval/harness.py:84-92 | Hit rate is hit rate given a search times search rate, 0 when nobody searched, and at most the rate of hits by any call. |
| Metrics.PearsonIsUndefinedIff | eval/metrics.py:147-162 | Undefined exactly for bad lengths or a constant series. |
| Metrics.PearsonIsBounded | eval/metrics.py:147-162 | Wherever defined, r lies between -1 and 1. |
| MetricFacts.LinesKeepR | eval/metrics.py:147-162 | An increasing line of one series leaves r as it is, a decreasing one turns its sign. |
| MetricFacts.RIsOneWithItself | eval/metrics.py:147-162 | A series that is not constant has r = 1 with itself. |
| MetricFacts.PercentileCounts | eval/harness.py:103-108 | A percentile is one of the values with the right number of values at or below and at or above it, at the place nearest to the fraction, the even one halfway. |
| MetricFacts.AnyHitIsOfSomeCall | eval/metrics.py:87-89 | A hit by any call is a chunk from an expected source brought back by some search. |
| MetricFacts.MetricsAreAverages | eval/harness.py:75-100 | Every mean and rate of the summary is the average, over exactly the outcomes that count for it, of what its name says. |
| MetricFacts.OrderMetricsReadTheirColumns | eval/harness.py:94-119 | Percentiles read the latencies of the outcomes without error; the length correlations read length and score of those that have both. |
| Moments.CauchySchwarz | eval/metrics.py:159-162 | The squared sum of products is at most the product of the sums of squares, for any two series. |
| Moments.NoSpreadIffConstant | eval/metrics.py:150-161 | The sum of squared deviations is zero exactly for a constant series. |
| Gate.PostgresSink.WriteResult | eval/db.py:228-252 | An unknown example raises and writes nothing; otherwise its row of this run is inserted or replaced and every other row stays. |
| Gate.StoredCostFacts | metadata/sql/08_eval_harness.sql:69-69 | A stored cost is within half a millionth, and equal exactly for whole millionths. |
| Gate.RowsAreTheOutcomes | eval/gate.py:80-86 | With distinct keys, the rows read back are a permutation of the outcomes written. |
| Gate.RowsAreLostIffKeysRepeat | eval/db.py:45-74 | A stored run has as many rows as the run had outcomes exactly when no key repeats. |
| Gate.RowOrderIsIrrelevant | eval/gate.py:127-155 | No metric depends on the order of the rows. |
| Gate.StoredRunAgrees | eval/gate.py:127-155 | For distinct keys and any row order, every metric both compute has the value the run itself reported, cost apart; the three the table cannot give are absent. |
| Gate.WholeCostsAgree | eval/gate.py:148-150 | The mean cost agrees too when all costs are whole millionths. |
| Gate.MeanCostDriftIsBounded | eval/gate.py:148-150 | In general the two mean costs differ by at most half a millionth. |
| Gate.MeanCostsSurviveEveryCutIff | eval/gate.py:148-150 | The rows of every prefix of a run report that prefix's own mean cost if and only if every cost that counts is a whole number of millionths. |
| Gate.RoundingsCanCancel | eval/gate.py:148-150 | A single mean can agree over fractional costs: 0.4 and 0.6 millionths are stored as 0 and 1. |
| Gate.CostsAreWholeIffPricesAre | services/gateway/pricing.py:51-55 | Every token count costs a whole number of millionths if and only if both prices are whole dollars per million tokens. |
| EvalRun.WholePricedRunKeepsItsMean | eval/gate.py:148-150 | At whole prices the stored rows of any run, in any order, report the run's own mean cost. |
| Budget.Ledger.Record | eval/budget.py:73-82 | Appends the rounded cost in memory and in the file; the sum spent grows by the cost to within half a millionth. |
| Budget.BudgetGuard.Observe | eval/budget.py:133-143 | The first observation becomes the baseline and spends nothing; later ones give the growth since, never negative. |
| EvalRun.ScoreOnce | eval/judge.py:277-318 | At most two judge calls, the second only after an unparseable first; raises exactly when a call does. |
| EvalRun.GradeIsBilled | eval/judge.py:277-318 | A grade costs what its calls were billed. |
| EvalRun.RunWithRetries | eval/harness.py:144-168 | Up to three attempts, a further one only after a 429 or a 5xx. |
| EvalRun.ScoreExample | eval/harness.py:182-267 | A failed turn becomes a row without scores; a raising judge raises. |
| EvalRun.ExampleIsBilled | eval/harness.py:230-265 | What an example was billed is what its outcome says it cost plus what its raising attempts were billed. |
| EvalRun.ScoredOutcomesAreHonest | eval/harness.py:235-248 | In every outcome of an answerable example, a hit is undefined exactly if the agent never searched, and implies a hit by any call. |
| ScoringFacts.AttemptsAreRetries | eval/harness.py:144-168 | An example is attempted up to three times, each time where the attempt before ended, again only after a 429 or a 5xx, and no further otherwise. |
| ScoringFacts.OutcomeIsItsReplies | eval/harness.py:217-265 | Told from the replies: a turn that raised leaves no score; one that returned leaves its own length, truncation, searches and hits; the first judge reply after it that parses, or the repair, is faithfulness, the next such is quality, and the judge parsed exactly if both have a score. |
| ScoringFacts.OutcomesOfARun | eval/harness.py:352-393 | So is each outcome of every run, its replies beginning where the example before ended. |
| EvalRun.RunExamples | eval/harness.py:352-393 | The loop processes and stores a prefix of the examples in order, and ends at the first raise, the first crossing of the cap, or the last example. |
| EvalRun.RunEval | eval/harness.py:301-400 | The run as a whole meets its specification: rows, outcomes, failures, the abort, and a reported cost equal to what the last poll saw; rows of other runs stay. |
| EvalRun.CapIsOvershotByOneExample | eval/harness.py:387-393 | With reliable, nondecreasing totals, ledger plus run cost exceeds the cap by at most what was billed between the last two polls: the last example's recorded cost, its raising attempts, and other clients meanwhile. It exceeds the cap exactly when the run was aborted. |
| EvalRun.RunCostCoversItsRows | eval/harness.py:395-399 | With reliable polls the run cost is the sum over its rows plus what raising attempts and other clients were billed: at least the sum, and equal exactly when both are nothing. |
| EvalRun.UntroubledRunsLoseNothing | eval/harness.py:207-224 | Where every first attempt returned, no billing is missing from the rows. |
| EvalRun.GuardSeesTheTruthIff | eval/budget.py:167-183 | The guard sees the true growth exactly when the last poll succeeded over a true baseline, or nothing was billed; a failed last poll reports a run cost of zero. |
| EvalRun.FailedPollsWidenTheOvershoot | eval/budget.py:167-183 | Whichever polls fail: a run is aborted exactly if its last poll succeeded and what it saw since the baseline crosses the cap; and the true overshoot is at most what was billed since any earlier poll that succeeded, over a baseline poll that did. |
| Runner.RunBudgeted | eval/runner.py:180-243 | Refused exactly when the ledger plus the estimate passes the cap, with nothing touched; otherwise run as specified, and its cost committed to the ledger even if it died. |
| Runner.LedgerStaysNearTheCap | eval/budget.py:118-168 | Whatever ran before, a run that was let through leaves the ledger at most half a millionth over the cap, plus, if it was aborted, what was billed around its last example. |
| EvalRun.RunDiesAtTheFirstRaise | eval/harness.py:250-259 | A run dies exactly at the first example whose judge raises or whose key is unknown, if the budget lets it get there, with all earlier rows committed. |
| EvalRun.HitRatesOfARunFactor | eval/harness.py:79-92 | The hit rate identity and bound hold of the summary of every run, whatever model, tools and gateway did. |
| EvalRun.GateReportsTheRun | eval/gate.py:158-199 | For examples with distinct keys, gating the rows of any run reports that run's own metrics, cost apart, with one row per outcome. |
| Disagreement.ExpectedDisagreementIsPositive | eval/label.py:201-206 | With two categories in use, expected disagreement is strictly positive under any proper weight. |
| Agreement.Tabulate | eval/label.py:188-190 | The matrix filled in place counts the pairs by judge and human category. |
| Agreement.CohensKappa | eval/label.py:174-206 | The matrix program returns kappa as defined over the pairs themselves: observed disagreement pairs each score with its own, expected with every one. |
| KappaLaws.KappaIsUndefinedIff | eval/label.py:174-206 | Undefined exactly for fewer than two pairs or when both raters only ever used the same one category. |
| KappaLaws.KappaIsOneIffAgreed | eval/label.py:174-206 | Kappa is at most 1, and 1 exactly on full agreement, plain and weighted. |
| KappaLaws.PlainKappaIsCohens | eval/label.py:174-206 | Plain kappa is the classical one: with `po` the share of pairs that agree and `pe` the share that would by chance, `k * (1 - pe) = po - pe`. |
| KappaLaws.ConstantRaterScoresZero | eval/label.py:174-206 | When one rater is constant and kappa is defined, it is 0. |
| KappaBounds.ObservedIsAtMostTwiceExpected | eval/label.py:197-206 | Under either weight, observed disagreement is at most twice what chance gives. |
| KappaBounds.KappaIsBounded | eval/label.py:174-206 | Both kappas lie between -1 and 1. |
| KappaBounds.QuadraticKappaClosedForm | eval/label.py:197-206 | Quadratic kappa times the sum of the raters' variances and squared mean difference, which is positive, is twice their covariance. |
| Sampler.Shuffle | eval/label.py:84-85 | Whatever is drawn, the result is a permutation. |
| Sampler.Round | eval/label.py:94-96 | One pass takes at most one row of each stratum and never more than asked, keeps every row chosen or in its bucket, and takes one if any is left. |
| Sampler.StratifiedSample | eval/label.py:69-97 | Ends with exactly min(n, rows) rows, a sub-multiset of the input in key order, in which two strata differ by more than one only if the smaller is used up, for every shuffle. |
| BraceScan.FindBalancedObjects | eval/judge.py:256-268 | The scanning loop returns the spans the scan of the whole text finds. |
| BraceScan.JoinedObjectsAreFound | eval/judge.py:256-268 | Balanced objects joined by brace-free text are found again: exactly those, in order. |
| BraceScan.ScanFindsExactlyTheTopLevel | eval/judge.py:256-268 | On any text the spans are exactly the balanced objects that nothing open encloses, at positive depth until their last character, in order and disjoint. |
| Sorting.SortIsStable | services/rag/bm25.py:87-87 | Sorting keeps the order of tied elements. |
| Sorting.SortForgetsOrder | eval/harness.py:103-108 | Sorted numbers do not depend on the order they came in. |

## Left out

- Kafka, Schema Registry, Trino, ClickHouse, Qdrant, Postgres, HTTP and the MCP transport: logs, maps and scripted replies stand for them.
- Avro encoding, hashing, embeddings and BM25 scoring: opaque; hashes are taken to be free of collisions.
- HTML sections, the heading pattern, JSON, YAML and judge reply parsing: lines arrive classified, and a judge's reply is parsed by any function.
- Floating-point rounding: reals; Python's `round` and the rounding of the cost column are modelled exactly.
- Durations: latencies are given numbers, and `duration_ms` of `get_trace` is not computed.
- `citation_ok`, rationales, stored answers and judge prompts: no theorem reads them.
- Blocks left out of order (a context manager closed by hand in another order than opened): outside the SDK's `with` discipline.
- A span whose `event_type` is unknown raises before it opens; the model has only known ones.
- CDC: primary keys that change, malformed timestamps, messages that are not JSON, an absent topic, retention trimming and tables dropped while a run is on.
- `str.strip` strips the four common blanks only.
- `AgentLoop.Retrieval.Collect`: search results carry numeric scores; a score that `float` refuses would raise out of the turn.
- `ProgramTree.ProgramRebuilds`: a span that passes a trace context where no trace is in scope joins another turn's tree; `TraceProtocol.TurnIsOneTree` covers it.
- `Ingest`: fetching, the project filter and the progress lines; a run is the list of files it fetched.
- `EvalRun`: git, run configuration columns, the count of unparseable judgements, printing, and the choice of tool executor.
- `Fusion.RetrieveHybrid`: the dense and sparse modes alone, span attributes, and turning ids into chunks.
- `eval/baseline.py`, report rendering, prompt and price loading, dashboards, dbt beyond the staging model cited: nothing harder than what is proved.
