# A verified model of the conversation archive

The archive keeps a fast, incremental index of conversations that several
processes share. This project models its hard core in Dafny and proves that the
fast forms agree with the simple ones: parse everything from byte 0 and store it
in one map. Two small independent parts, the JSON-RPC connection and the path
sanitizer, are modelled too.

`dafny verify dfyconfig.toml` checks the whole project.

| files | what they model |
|---|---|
| `Prelude.dfy`, `MetaMerge.dfy` | shared records, the order of session ids, and the delta merge of `_meta.json` |
| `TurnsCache.dfy` | the LRU of turns with its generation numbers, as values and as a class |
| `IndexProtocol.dfy`, `IndexProtocolProofs.dfy`, `IndexHistory.dfy` | any number of index instances over one directory, as a transition system with one action per critical section or file operation (reading the meta file for the merge and renaming the merged file into place are two actions); rely/guarantee proof of what every run keeps |
| `IndexProgress.dfy` | what a batch, a load and a read achieve when left alone |
| `LoadFastPath.dfy`, `StaleLoad.dfy` | when skipping the reload is sound, and the schedule in which it is not |
| `IndexStore.dfy` | one index instance as a class, with every lock, write and commit free to fail |
| `Lines.dfy`, `SessionParser.dfy`, `SessionIndexing.dfy` | newline-delimited files, the session parser, full and incremental indexing |
| `Coverage.dfy` | ontology coverage and its sum |
| `Ingest.dfy`, `IngestDelta.dfy` | the ingest accumulator, the delta apply, the full re-parse, the watermark |
| `IngestSessions.dfy`, `IngestFiles.dfy`, `IngestTheorems.dfy` | why delta ingest agrees with the full re-parse |
| `IngestCrashes.dfy`, `TornTail.dfy`, `LostTurns.dfy` | cycles that lose their watermark, tails read before their newline, and lost turns files |
| `References.dfy` | independent descriptions of what the two parsers produce |
| `Reconcile.dfy`, `ReconcileProofs.dfy`, `Convergence.dfy`, `PlanMeaning.dfy`, `ReconcileRuns.dfy` | the plan, what it says about the files, its application, when it converges, and what every run of cycles leaves |
| `Search.dfy`, `Enclosing.dfy` | search with its session-level time pre-filter, and why every index the reconcile loop builds suits it |
| `Witnesses.dfy` | concrete inputs for what was found |
| `RpcConn.dfy`, `RpcConnProofs.dfy` | the JSON-RPC connection as a transition system |
| `PathSafe.dfy` | the path sanitizer and lexical joining |

## How the system is abstracted

- JSON decoding of a line, timestamp parsing, content hashing, term matching and
  excerpts are parameters. A hash that only serves as a fingerprint is injective,
  so the hashed bytes stand for it; an ingest content hash is only known to be 16
  hexadecimal digits.
- Times are natural numbers of nanoseconds; zero is Go's zero time.
- Every rename of `_meta.json` gets an mtime the file never had before. The size
  conjunct of the load fast path is dropped, so the theorem covers every state
  in which the real check passes, and more.
- Every rewrite of a turns file draws a fresh version that the meta entry of the
  same call carries: the advancing `IndexedAt` that index.go:153-162 asks of
  callers.
- Session ids map to distinct turn files, none of them `_meta.json`.
- `SessionMeta` and `Turn` are modelled from the fields listed at index.go:195-210
  and turns_cache.go:59-67.

## What was found

- The load fast path is not sound in every schedule. A `Load` that read the meta
  file before an earlier local commit can swap its map in between a later batch's
  comparison (index.go:1137-1157) and its bookkeeping (index.go:1158-1165). The
  stamp then matches the file although memory lost a session, so `LoadIfChanged`
  keeps skipping the reload. `StaleLoad.StaleLoadDefeatsFastPath` exhibits the
  run. `StaleLoad.SwapInWindowIsSoundIffMissedNothing` gives the exact condition
  in terms of what the load saw: every session outside the running batch that a
  delta committed since the read names was absent from what the load read and is
  last named by a delete. `LoadFastPath.SkippedReloadIsSound` proves soundness for
  all runs that meet it; a load whose recorded mtime is still the file's, and a
  load whose read and swap are one step, always do. The comments at
  index.go:128-130 and 1132-1157 do not mention this window.
- Convergence needs distinct basenames, not only a session per source: a source
  whose two directories hold files of the same name reports drift after every
  apply (`ReconcileProofs.SettlesIffDistinctNames`,
  `Witnesses.RepeatedBasenameNeverSettles`).
- A source all of whose records are rejected or quarantined is planned as a
  create forever (`Convergence.AppliedPlanConverges`, the failing half of the
  equivalence; `Witnesses.RejectedSourceIsCreatedForever`).
- A record still without its newline is counted by a full parse and again by the
  delta that reads its line (`TornTail.CoverageSurvivesTornTailsIffUncounted`,
  `Witnesses.TornRecordIsCountedTwice`).
- Delta ingest does not notice a lost turns file whose meta entry survives: it
  checks the meta's turn count but seeds from the turns it reads, so the next
  delta leaves only the new turns and records their number
  (`LostTurns.DeltaIsRightIffCountsAgree`, `Witnesses.LostTurnIsNotReread`). The
  session path guards against this at provider.go:1496-1506; the comment at
  ingest_watermark.go:307-310 promises the same here.
- The search pre-filter hides turns without a timestamp when only `until` is set
  (`Search.LimitedIsExactIffHiddenOnlyLate`, `Witnesses.UntimedTurnIsLost`); the
  comment at index.go:812-816 says that a false result proves no turn can match.

## Model

| member | source | states |
|---|---|---|
| MetaMerge.LastDeltaDecides | internal/conversations/index.go:1097-1117 | after any sequence of committed deltas, what the file says about a session is what the last delta naming it said, whatever the others did; a session no delta names is as in the initial file |
| TurnsCache.EvictedIsLongestFittingPrefix | internal/conversations/turns_cache.go:159-165 | eviction leaves a recency prefix that fits both bounds, and every longer prefix breaks one |
| TurnsCache.EveryRunKeepsInvariant | internal/conversations/turns_cache.go:85-178 | after every operation sequence the list has no duplicate session, sizes are exact, both bounds hold, and no generation exceeds the counter |
| TurnsCache.StoredEntrySurvives | internal/conversations/turns_cache.go:150-166 | with an entry cap of at least one, an entry within a quarter of the byte bound survives its own eviction pass, in front |
| TurnsCache.OversizedIsNotKept | internal/conversations/turns_cache.go:150-155 | turns beyond a quarter of the byte bound are not kept, nor is what was cached for their session before |
| TurnsCache.ListedByLastUse | internal/conversations/turns_cache.go:85-166 | after every operation sequence the cached sessions are listed by their last use, the most recent first, so eviction drops what was used longest ago |
| TurnsCache.EstimateIsPayload | internal/conversations/turns_cache.go:57-68 | the size estimate is the length of all strings of the turns, role included, plus 160 for each turn |
| TurnsCache.CacheRefinesMap | internal/conversations/turns_cache.go:85-138 | for every operation sequence a hit returns exactly what an unbounded map cache holds, with the same generations: eviction is the only difference |
| TurnsCache.GenerationsGrow | internal/conversations/turns_cache.go:70-138 | a session's generation never decreases and strictly increases at every put, invalidate and clear |
| TurnsCache.StaleReadIsRejected | internal/conversations/turns_cache.go:109-116 | a read begun before a put, invalidate or clear of its session changes nothing, whatever ran in between |
| TurnsCache.BoundedCache.constructor | internal/conversations/turns_cache.go:49-55 | an empty valid cache |
| TurnsCache.BoundedCache.Gen | internal/conversations/turns_cache.go:71-83 | the session's generation, or the epoch |
| TurnsCache.BoundedCache.Lookup | internal/conversations/turns_cache.go:86-95 | hit exactly when an entry exists, with its turns; the entry moves to the front; map, list and byte counter stay in agreement |
| TurnsCache.BoundedCache.Insert | internal/conversations/turns_cache.go:99-105 | the recency list and generations of the abstract put |
| TurnsCache.BoundedCache.InsertIfGen | internal/conversations/turns_cache.go:109-116 | the abstract conditional put: nothing changes when the generation moved |
| TurnsCache.BoundedCache.Drop | internal/conversations/turns_cache.go:119-125 | the abstract invalidate |
| TurnsCache.BoundedCache.Reset | internal/conversations/turns_cache.go:129-138 | the abstract clear, with a new epoch |
| TurnsCache.BoundedCache.RemoveLocked | internal/conversations/turns_cache.go:169-178 | the entry is gone, the byte counter is again the sum of sizes |
| TurnsCache.BoundedCache.StoreLocked | internal/conversations/turns_cache.go:150-166 | old entry removed, oversized turns not cached, otherwise pushed in front and evicted to the longest fitting prefix |
| TurnsCache.BoundedCache.EvictLocked | internal/conversations/turns_cache.go:159-165 | the loop computes the specified eviction and keeps map, list and counter in agreement |
| TurnsCache.BoundedCache.Estimate | internal/conversations/turns_cache.go:59-68 | the size estimate of a session's turns |
| IndexProtocolProofs.StepKeeps | internal/conversations/index.go:452-638 | every action of every instance (batch, load, read, eviction, crash) keeps the invariant of the whole system, among it that what a writer read for its merge is still the file while it holds the meta lock |
| IndexProtocolProofs.NoLostUpdate | internal/conversations/index.go:1091-1130 | with the read for the merge and the rename as separate steps, in every reachable state of any number of instances the meta file is the fold of the committed deltas in meta-lock order, and each entry is what the last delta naming it said: no lost update, no resurrection |
| IndexProtocolProofs.TurnsAndMetaStayPaired | internal/conversations/index.go:480-515 | in every reachable state, a session that no batch holds and no failed commit left behind has meta entry and turns file from the same call, and one exists exactly when the other does |
| IndexProtocolProofs.CachedTurnsAreNeverOlder | internal/conversations/index.go:757-810 | in every interleaving of readers, writer, peers and loads, turns cached for an indexed session are never older than the session map's entry |
| IndexHistory.StepKeepsHistory | internal/conversations/index.go:153-162 | every action keeps it true that no two commits of a session carry the same version and that a running batch is about to commit newer ones |
| IndexHistory.SameSinceRead | internal/conversations/index.go:138-146 | an earlier read of the file still agrees with it on a session if and only if no delta has named the session since, or it was absent then and the last delta naming it deleted it |
| LoadFastPath.CurrentIffMissedNothing | internal/conversations/index.go:1137-1157 | merged with the running delta, what a load read is the file if and only if every session outside the delta named since the read was absent and is last named by a delete |
| LoadFastPath.SkippedReloadIsSound | internal/conversations/index.go:218-248 | in every run in which loads that swap inside the bookkeeping window missed nothing, whenever the stamp matches the file the session map plus the pending delta equals the file, except sessions dropped for a corrupt turns file |
| LoadFastPath.SameMtimeIsTimely | internal/conversations/index.go:128-136 | in every reachable state, a load whose recorded mtime is still the file's may swap at any time |
| LoadFastPath.AtomicLoadsAreSound | internal/conversations/index.go:127-186 | in every run whose loads read and swap in one step, a skipped reload is sound without further condition |
| IndexProtocolProofs.NoCircularWait | internal/conversations/index.go:321-334 | in every reachable state, including skipped ids, no chain of waits of any length closes |
| IndexProtocolProofs.WantedIsAboveOwned | internal/conversations/index.go:462-480 | a waiting batch wants a lock above every lock it holds: sorted session locks first, meta lock last |
| IndexProgress.UndisturbedBatchLands | internal/conversations/index.go:452-638 | in any state, a batch of any size over sessions nobody holds, left alone, lands: turns file, meta entry, memory and cache of each of its sessions have the one version it wrote, or are gone; all others are untouched, every lock is free again, and the fast path passes if memory agreed with the file |
| IndexProgress.UndisturbedLoad | internal/conversations/index.go:127-186 | in any state, a load left alone makes memory the file, the fast path passes, and the cache keeps exactly the sessions whose entry did not change |
| IndexProgress.UndisturbedRead | internal/conversations/index.go:757-788 | in any state, a read of an indexed session that is not cached, left alone, caches the version of the turns file and changes nothing else |
| IndexProgress.MovedReadStartsOver | internal/conversations/index.go:779-784 | a first attempt whose session moved on starts over and caches what the file holds now |
| IndexProgress.UnreadableIsDropped | internal/conversations/index.go:790-806 | a session whose turns file cannot be read leaves memory, and only it |
| StaleLoad.SwapInWindowIsSoundIffMissedNothing | internal/conversations/index.go:1137-1165 | in any reachable state, after a load swaps between comparison and bookkeeping the fast path will pass, and memory is right if and only if the load missed nothing: no session outside the batch named since its read, unless absent then and last deleted |
| StaleLoad.StaleLoadDefeatsFastPath | internal/conversations/index.go:163-184 | a reachable state in which the fast path passes although memory lost a session |
| IndexStore.SortedIds | internal/conversations/index.go:466-470 | the distinct ids in strictly increasing order, none lost |
| IndexStore.Index.constructor | internal/conversations/index.go:107-117 | an empty valid index |
| IndexStore.Index.Load | internal/conversations/index.go:127-186 | memory equals the file, the stamp matches it, and exactly the cached turns of sessions whose entry changed are dropped, order kept; everything is dropped when nothing was known |
| IndexStore.Index.LoadIfChanged | internal/conversations/index.go:218-248 | afterwards memory equals the file; reloads exactly when the stamp did not match; otherwise nothing changes |
| IndexStore.Index.WriteMeta | internal/conversations/index.go:1086-1171 | the file becomes its current content with only the delta merged in; the stamp matches afterwards only if memory plus the delta is the file; at most one commit |
| IndexStore.Index.AcquireSessionLocks | internal/conversations/index.go:321-334 | every id ends up held or failed, never both, in order |
| IndexStore.Index.WriteTurns | internal/conversations/index.go:491-501 | a failed turns write excludes only its own session |
| IndexStore.Index.CommitMeta | internal/conversations/index.go:508-515 | one meta commit, none when nothing reached it; its failure is shared by exactly the ids that reached it |
| IndexStore.Index.UpsertSessions | internal/conversations/index.go:452-539 | for every pattern of lock, write and commit failures: one outcome per distinct id in order, nil exactly for ids that passed all phases; exactly those change memory and file, to their last item; turns files change exactly where written; at most one meta commit; the cache receives their puts in order |
| IndexStore.Index.DeleteSessions | internal/conversations/index.go:566-638 | the same for deletes: exactly the ids that passed all phases leave memory, file and cache |
| IndexStore.Index.RemoveTurns | internal/conversations/index.go:597-604 | a failed removal excludes only its own session |
| IndexStore.Index.Report | internal/conversations/index.go:530-538 | one outcome per id, in order, each the first phase the id failed |
| IndexStore.OnlyPassingIdsChange | internal/conversations/index.go:452-539 | per id: it takes its last duplicate's meta if it passed every phase, and is untouched otherwise |
| IndexStore.OutcomeIs | internal/conversations/index.go:530-538 | an id's outcome: no error exactly when lock, file and commit all went through, otherwise the first that failed |
| Lines.FoldResumes | internal/conversations/parser.go:107-124 | scanning lines can stop and resume at any line boundary with the same result |
| Lines.LastCompleteIsGreatest | internal/conversations/ingest_watermark.go:200-202 | the last complete offset is zero or just past a newline, and no greater offset is |
| Lines.CutLandsOnLastComplete | internal/conversations/ingest_watermark.go:369-381 | from a mark at a line boundary, the delta's cut lands on the last complete offset of the whole file |
| Lines.LastCompleteGrows | internal/conversations/ingest_watermark.go:53-62 | appending never moves that offset back |
| Lines.LastIndexOfNewline | internal/conversations/ingest_watermark.go:224-224 | the last newline of a buffer, or -1 |
| Lines.LastCompleteOffset | internal/conversations/ingest_watermark.go:203-230 | the backward scan in chunks of any size finds the last complete offset |
| SessionParser.ParseSession | internal/conversations/parser.go:102-205 | the scanner loop computes the fold of the line function over all tokens |
| SessionParser.ParseLine | internal/conversations/parser.go:132-202 | one line at a time, nothing skipped |
| SessionParser.WidenKeepsExact | internal/conversations/parser.go:378-388 | bounds that are the least and greatest timestamps stay so with one more turn |
| SessionParser.FullParseIsSound | internal/conversations/parser.go:102-205 | a full parse numbers turns from zero without gaps, has recorded every emitted uuid, and its bounds are exactly the least and greatest timestamps |
| References.ParseIsWhatTheRecordsSay | internal/conversations/parser.go:132-274 | a full parse turns exactly the messages with content whose uuid no earlier message carries into turns, in file order and numbered from zero; each turn has its record's uuid, role, timestamp, parent and tool-call flag, and its text, cut after the maximum length with a mark when longer; the entrypoint is the first non-empty one, the title the last non-empty one |
| References.ScanReadsBack | internal/conversations/parser.go:107-124 | the scanner reads back exactly the lines that were written, whichever line ends were used, and then the unterminated tail |
| SessionIndexing.IndexSessionIncremental | internal/conversations/provider.go:1483-1633 | declines exactly when the watermark is zero or beyond the file, the turns read are not as many as recorded, no window was recorded, some byte of the up to 4096 below the watermark is not what was recorded, or a file that did not grow was touched by more than two seconds; otherwise the resumed projection |
| SessionIndexing.Merged | internal/conversations/provider.go:1583-1600 | the tail's turns whose uuid is neither indexed nor already kept |
| SessionIndexing.Renumbered | internal/conversations/provider.go:1610-1612 | contiguous indexes over the whole session, nothing else changed |
| SessionIndexing.WatermarkCutsAtLine | internal/conversations/provider.go:1403-1412 | the watermark is a line boundary and the bytes below it alone give the whole file's result: a torn last line is never skipped |
| SessionIndexing.CutAtWatermark | internal/conversations/provider.go:1563-1567 | reading on from the watermark's state reaches the state of a parse from byte 0: at a line boundary, and in the middle of a line whose record was already read |
| SessionIndexing.ResumedEqualsFull | internal/conversations/provider.go:1483-1633 | resuming from the watermark gives exactly the full projection of the grown file, also behind a record that was read before its newline arrived |
| SessionIndexing.ResumesIffWindowKept | internal/conversations/provider.go:1353-1367 | after a full index the fast path runs on whatever the file holds now if and only if the watermark lies within it, the window of 4096 bytes below the watermark is still what was indexed, and a file ending there was not touched |
| SessionIndexing.WrongCountDeclines | internal/conversations/provider.go:1496-1506 | whatever else holds, turns that are not as many as recorded make it decline |
| SessionIndexing.SmallFileResumesRight | internal/conversations/provider.go:1519-1561 | with a watermark within the window, whatever happened to the file: a result that is not declined is the full projection of the file as it is now, under the conditions on the tail alone |
| SessionIndexing.OneLineResumesIffHarmless | internal/conversations/provider.go:1579-1600 | for a tail of one line, resuming agrees with the full parse if and only if a repeated uuid belongs to an indexed turn and does not widen the bounds |
| SessionIndexing.EveryRunEqualsOneFullParse | internal/conversations/provider.go:1426-1483 | any number of incremental or full passes over a file that only grows ends with the projection of one full parse of the last snapshot |
| Coverage.AddCoverage | internal/conversations/ingest_watermark.go:256-278 | the sum of two coverages; later refs win when set |
| Coverage.AddCounts | internal/conversations/ingest_watermark.go:261-270 | per-component sums over all keys of both maps |
| Coverage.CountingStaysBalanced | internal/conversations/coverage.go:78-104 | over every event sequence, quarantined equals the sum of the unmapped-component counts and degenerate never exceeds mapped |
| Coverage.CoverageOfConcatenation | internal/conversations/ingest_watermark.go:255-278 | coverage of concatenated inputs is the sum of the parts' coverages, under one mapping |
| Coverage.RefsAreRecorded | internal/conversations/coverage.go:106-114 | under one mapping, once any event carried refs the coverage carries them, whatever it held before |
| Coverage.ComponentsAreCounted | internal/conversations/coverage.go:95-104 | a component's count is the number of quarantine events of that component |
| Coverage.CoverageTracker.RecordMapped | internal/conversations/coverage.go:78-82 | one source's mapped count grows by one, nothing else changes |
| Coverage.CoverageTracker.RecordDegenerate | internal/conversations/coverage.go:85-91 | degenerate and mapped grow together |
| Coverage.CoverageTracker.RecordQuarantined | internal/conversations/coverage.go:95-104 | quarantined and the component's count grow together |
| Coverage.CoverageTracker.SetRefs | internal/conversations/coverage.go:108-114 | last refs win, counts unchanged |
| Ingest.IsContentHashUUID | internal/conversations/ingest_parser.go:378-389 | true exactly for 16 lower-case hexadecimal digits |
| Ingest.Accumulator.ConsumeFile | internal/conversations/ingest_parser.go:144-324 | sessions gain exactly the accepted records in order, every source's coverage gains exactly its counted ones, and the session order lists each session once |
| Ingest.Accumulator.ConsumeLine | internal/conversations/ingest_parser.go:148-202 | rejections in the source's order: empty, undecodable, unknown schema, missing field, unknown role, draft quarantined without refs |
| Ingest.Accumulator.EnforceOntology | internal/conversations/ingest_parser.go:213-250 | unmapped sources quarantined with refs; mapped or degenerate counted before dedup |
| Ingest.Accumulator.AddRecord | internal/conversations/ingest_parser.go:253-320 | first sight seeds from the index; a seen key changes nothing; otherwise one turn, bounds, title, identity and count |
| References.SessionIsFirstRecords | internal/conversations/ingest_parser.go:144-359 | over decoded records: a session exists exactly when an acceptable record names it; its turns are exactly the acceptable records that no earlier one of the session repeats (the same stable id, or none and equal role, timestamp and text), in file order; each turn has the stable id or the content hash as uuid, the position or the record's own index, and the record's role, time, clipped text and refs; title and identity are the first non-empty ones |
| References.EveryRecordIsCountedOnce | internal/conversations/ingest_parser.go:187-250 | under an ontology every well-formed record of a source is counted exactly once, duplicates included: quarantined counts the drafts and the records of a source no mapping speaks, mapped all others, degenerate those of them whose role the mapping calls degenerate |
| IngestDelta.WatermarkDrift | internal/conversations/ingest_watermark.go:148-162 | drift exactly for a new file, a changed size or a different number of files |
| IngestDelta.IndexMatchesWatermark | internal/conversations/ingest_watermark.go:170-178 | true exactly when every recorded session is indexed with at least its recorded turns |
| IngestDelta.ConsumePast | internal/conversations/ingest_watermark.go:351-382 | one file: refuses a shrunk file, otherwise reads exactly the complete lines past the mark and moves the mark behind them |
| IngestDelta.ApplyIngestSourceDelta | internal/conversations/ingest_watermark.go:298-408 | needs a full parse exactly for a missing watermark, other fingerprint, lost session, vanished or shrunk file; otherwise index, marks, coverage and session counts of the delta |
| IngestDelta.Batch | internal/conversations/ingest_watermark.go:384-398 | only sessions that gained a turn are upserted, or all of them after a full parse, each stamped with the aggregate |
| IngestDelta.Commit | internal/conversations/ingest_watermark.go:399-407 | the new watermark: marks, summed coverage, updated session counts |
| IngestDelta.ApplyIngestSource | internal/conversations/provider.go:1712-1794 | every parsed session replaces its entry, known sessions the parse lacks are pruned, and the watermark of a full parse is recorded; fails without files |
| IngestDelta.MarksFromFull | internal/conversations/ingest_watermark.go:233-253 | each file marked at its last complete offset with its size |
| IngestSessions.SessionOf | internal/conversations/ingest_parser.go:253-276 | sessions are independent: each is built from its own records alone, seeded once |
| IngestSessions.SeedingCovers | internal/conversations/ingest_parser.go:361-376 | keys seeded from indexed turns cover every key their records had, and add no new id |
| IngestSessions.SeedingDiffersIffClash | internal/conversations/ingest_parser.go:361-376 | seeding suppresses a record the full parse keeps if and only if its id was indexed under the other namespace only |
| IngestSessions.MergeReachesWhole | internal/conversations/ingest_parser.go:253-320 | new records merged onto an indexed session give the session of one pass over all records: turns, indexes, title, identity, bounds |
| IngestSessions.GrownUuids | internal/conversations/ingest_parser.go:278-320 | a session's uuids are those of its records, in whatever order and however often they come |
| IngestFiles.PartsTile | internal/conversations/ingest_watermark.go:369-381 | consumed bytes and new complete lines tile the complete lines of a file exactly once |
| IngestFiles.MarksMoveOn | internal/conversations/ingest_watermark.go:340-382 | the marks a delta records are those a full parse would record |
| IngestFiles.CoverageTiles | internal/conversations/ingest_watermark.go:405-405 | coverage of the complete lines is the sum of what was consumed and what is new, wherever the files grew |
| IngestTheorems.RunEqualsFullParse | internal/conversations/ingest_watermark.go:298-408 | over every run of cycles whose new bytes follow the consumed ones in file order, each session ends with the turns, indexes, title, identity and bounds of one full parse of the last snapshot |
| IngestTheorems.AnyGrowthKeepsUuids | internal/conversations/ingest_watermark.go:298-408 | over every run, wherever files grow: the same sessions with the same sets of turn uuids, and the same watermark offsets and coverage as one full parse; no assumption on ids |
| IngestTheorems.MarksNeverDecrease | internal/conversations/ingest_watermark.go:340-382 | along every run of delta or full cycles the watermark never loses a file and never moves a mark back |
| IngestTheorems.ReplayIsIdempotent | internal/conversations/ingest_watermark.go:327-407 | replaying a delta whose index commit landed but whose watermark did not: the watermark is still usable, the index does not change at all, and the same offsets and coverage come out |
| IngestCrashes.CrashesEqualFullParse | internal/conversations/provider.go:875-884 | over every run of in-order growth in which any cycle may lose its watermark after the index commit, each session ends with the turns, indexes, title, identity and bounds of one full parse |
| IngestCrashes.CrashesLoseNoTurn | internal/conversations/provider.go:875-884 | over every such run, wherever files grow: the same sessions with the same sets of turn uuids, and the same offsets and coverage once a watermark survives |
| IngestCrashes.MergeAgain | internal/conversations/ingest_parser.go:278-283 | records merged onto an index that already holds some of them give the session of all of them |
| LostTurns.LossIsUnnoticed | internal/conversations/ingest_watermark.go:170-186 | a lost turns file whose meta entry survives leaves the watermark exactly as usable as before |
| LostTurns.DeltaIsRightIffCountsAgree | internal/conversations/ingest_watermark.go:332-397 | a delta bringing new records to a session leaves it as the full parse has it if and only if the turns read are as many as its meta entry counts; the watermark records whatever came out |
| LostTurns.LossHealsOnlyByReemission | internal/conversations/ingest_watermark.go:332-338 | if the session comes out right all the same, every lost record was emitted again |
| TornTail.CoverageSurvivesTornTailsIffUncounted | internal/conversations/ingest_watermark.go:366-405 | for any files, tails and growth: after a full parse and the next cycle, coverage is the full parse's if and only if no unterminated tail was counted when the first parse read it |
| Reconcile.Provider.PlanSource | internal/conversations/provider.go:356-406 | create without indexed sessions, update on watermark drift, lost turns or legacy aggregate drift, skip otherwise |
| Reconcile.Provider.ComputePlan | internal/conversations/provider.go:279-432 | the plan holds each wanted action once and nothing else, deletes included; what is wanted is spelled out by the rows of PlanMeaning |
| Reconcile.Provider.ApplyPlan | internal/conversations/provider.go:466-884 | ingest actions at once, session upserts and deletes batched after the loop, watermarks of sources no longer live dropped |
| Reconcile.Provider.IndexUpdated | internal/conversations/provider.go:730-770 | resumes from the recorded watermark where that is safe, full parse otherwise |
| Reconcile.Provider.IngestSource | internal/conversations/provider.go:647-703 | delta first, full re-parse otherwise, watermark recorded |
| ReconcileProofs.OwnerOfKey | internal/conversations/ingest_parser.go:411-415 | the part of an index key before its first slash is the source |
| ReconcileProofs.SettlesIffDistinctNames | internal/conversations/ingest_watermark.go:148-162 | a watermark just recorded reports no drift if and only if the basenames are distinct |
| Convergence.SourceApplied | internal/conversations/provider.go:638-719 | applying one source touches nothing else, and the next plan skips it if and only if its basenames are distinct and it yields a session |
| Convergence.AppliedPlanConverges | internal/conversations/provider.go:279-910 | for every order of the plan's actions, after a failure-free apply the next plan on unchanged files has no create, update or delete if and only if every source settles, a condition known beforehand; the archive stays correctly filed |
| PlanMeaning.SessionsPlanned | internal/conversations/provider.go:310-354 | a session file is created if and only if it is not indexed, updated if and only if it is indexed and its size differs from the recorded one or its mtime is more than two seconds away, skipped otherwise |
| PlanMeaning.SourcesPlanned | internal/conversations/provider.go:356-406 | a source is created if and only if no session of it is indexed, updated if and only if one is and the files differ from the watermark in number, name or size, or a recorded session is gone or short of turns, or without a watermark a stamp is not the aggregate |
| PlanMeaning.DeletesPlanned | internal/conversations/provider.go:408-432 | exactly the entries whose file or source is no longer configured are deleted |
| PlanMeaning.IdleSessionsAreCurrent | internal/conversations/provider.go:1317-1328 | if the plan has nothing to do, each session entry that came from an earlier state of its file is the full parse of the file as it is now |
| PlanMeaning.IdleSourcesAreCurrent | internal/conversations/provider.go:1647-1664 | if the plan has nothing to do, each session of a source whose watermark and index stand for an earlier snapshot is what a full parse gives now |
| PlanMeaning.LatestIsGreatest | internal/conversations/provider.go:1729-1731 | the aggregate mtime is the latest of the files' |
| PlanMeaning.TotalIsLength | internal/conversations/provider.go:1728-1728 | the aggregate size is the length of all bytes of the files |
| PlanMeaning.StampsAreAggregates | internal/conversations/provider.go:1675-1693 | after a full parse every session of the source carries the aggregate stamp, so even without the watermark the next plan finds nothing changed |
| PlanMeaning.DeltaTouches | internal/conversations/ingest_watermark.go:384-398 | a delta changes exactly the sessions that gain a turn and stamps them with the aggregate |
| PlanMeaning.CycleIsOnRecord | internal/conversations/ingest_watermark.go:399-407 | every cycle, delta or full, leaves each session of the source on the watermark with its turn count |
| PlanMeaning.LostSessionIsNoticed | internal/conversations/ingest_watermark.go:307-313 | a session on record that is lost from the index or cut short makes the watermark unusable and the source planned again |
| PlanMeaning.NeedsFullIff | internal/conversations/ingest_watermark.go:298-365 | a full parse is needed if and only if there is no watermark, the mapping changed, a recorded session is missing or short of turns, a consumed file is gone, or a file is shorter than what was consumed |
| PlanMeaning.MappingChangeReparses | internal/conversations/ingest_watermark.go:303-306 | when the mapping changed, each session becomes what the new mapping makes of all records, whatever was indexed |
| PlanMeaning.WatermarksAreConfigured | internal/conversations/provider.go:869-874 | after an apply only configured sources have a watermark |
| ReconcileRuns.SourceIsCycled | internal/conversations/provider.go:638-719 | in whatever order a plan is carried out, each source ends as one cycle of that source alone leaves it, or as it was if there was nothing to do |
| ReconcileRuns.SessionIsIndexed | internal/conversations/provider.go:730-790 | in whatever order a plan is carried out, each session file is created, updated or left alone on its own |
| ReconcileRuns.EveryRunIsCurrent | internal/conversations/provider.go:279-910 | from an empty archive, over any number of cycles carried out in any order, with files that come, grow and go: the archive holds, for each session file, its full parse, for each source exactly the sessions of one pass over all its records with the watermark of a full parse, and nothing else |
| Search.Search | internal/conversations/index.go:838-911 | candidates in id order; the early return at the limit yields the first hits of the filtered scan |
| Search.ScanTurns | internal/conversations/index.go:871-908 | one session's turns in order, stopping exactly at the limit |
| Search.OnlyCandidates | internal/conversations/index.go:851-859 | the order in which sessions are scanned is determined by the index |
| Search.PlainScanFindsWhatIsAsked | internal/conversations/index.go:862-909 | the hits of a scan of every turn correspond in order to exactly the places (session, turn) whose session has the identity asked for, whose timestamp is within the window and whose text matches; each hit tells that turn's index, uuid, time, role and excerpt and that session's identity, title and source |
| Search.LimitedIs | internal/conversations/index.go:905-907 | no limit keeps every hit, a limit the first hits, as many as it allows |
| Search.SkippedIffDisjoint | internal/conversations/index.go:817-825 | a session with timestamps is skipped if and only if no time between its bounds lies in the window |
| Search.PrefilterIsExact | internal/conversations/index.go:817-825 | with bounds that enclose the timestamps and every turn timestamped, the same hits in the same order, limit included, as a scan of every turn of every session |
| Search.PrefilterIsExactIffNothingHidden | internal/conversations/index.go:817-825 | without a limit, pre-filtered and plain scan agree if and only if no session is skipped that holds a matching turn without timestamp |
| Search.LimitedIsExactIffHiddenOnlyLate | internal/conversations/index.go:905-907 | limit included, pre-filtered and plain scan agree if and only if no hidden hit is among the hits the plain scan returns |
| Search.IngestKeepsExactBounds | internal/conversations/ingest_parser.go:297-298 | merging records onto a session whose bounds are its least and greatest timestamps keeps them so |
| Search.ParsersKeepExactBounds | internal/conversations/parser.go:378-388 | a session either parser builds from scratch has bounds that are exactly its least and greatest timestamps |
| Enclosing.ResumedEncloses | internal/conversations/provider.go:1567-1600 | resuming keeps the bounds enclosing, whatever uuids the tail repeats |
| Enclosing.DeltaEncloses | internal/conversations/ingest_watermark.go:327-407 | a delta keeps every session's bounds enclosing its turns |
| Enclosing.FullParseEncloses | internal/conversations/provider.go:1712-1794 | so does a full re-parse with its pruning |
| Enclosing.EveryArchiveIsEnclosed | internal/conversations/provider.go:466-910 | every index that any number of reconcile cycles builds from an empty one, over whatever files and plans, has enclosing bounds |
| Enclosing.SearchIsExactOnEveryArchive | internal/conversations/index.go:838-911 | on every such index whose turns carry timestamps, pre-filtered search equals the scan of every turn, limit included |
| Enclosing.LimitedSearchIsExactIffHiddenOnlyLate | internal/conversations/index.go:838-911 | on every such index, over the sessions a search scans, the two agree, limit included, if and only if no hidden hit is among those the plain scan returns |
| Enclosing.SearchIsExactIffNothingHidden | internal/conversations/index.go:838-911 | on every such index, without a limit, the two agree if and only if no session is skipped that holds a matching turn without timestamp |
| Witnesses.RepeatedBasenameNeverSettles | internal/conversations/provider.go:1208-1256 | two files of one basename: after the apply the next plan updates the source again |
| Witnesses.RejectedSourceIsCreatedForever | internal/conversations/provider.go:369-377 | one record of an unknown schema: planned as a create before and after the apply |
| Witnesses.TornRecordIsCountedTwice | internal/conversations/ingest_watermark.go:366-405 | one draft without its newline, then completed: the watermark counts two, a full parse one |
| Witnesses.LostTurnIsNotReread | internal/conversations/ingest_watermark.go:332-338 | one indexed turn, its turns file lost, one new record: the delta leaves one turn, a full parse two |
| Witnesses.UntimedTurnIsLost | internal/conversations/index.go:817-825 | a matching turn without timestamp that a scan finds and the pre-filter loses |
| RpcConn.DecimalIsInjective | internal/acprpc/conn.go:137-138 | distinct requests carry distinct ids |
| RpcConn.DecimalIsNumeral | internal/acprpc/conn.go:138-138 | an id is the decimal numeral of its request number, without leading zeros |
| RpcConnProofs.StepKeeps | internal/acprpc/conn.go:127-221 | every step of every call and of the read loop keeps the invariant |
| RpcConnProofs.ResponseReachesItsCall | internal/acprpc/conn.go:202-210 | in every run, what a call returns as its answer was read from the stream with that call's id, which no other call has |
| RpcConnProofs.ResponseGetsThrough | internal/acprpc/conn.go:202-210 | in every reachable state, a response read for a waiting call is delivered and received by three enabled steps, and the call returns exactly it |
| RpcConnProofs.ClosedCallHadNoResponse | internal/acprpc/conn.go:212-219 | in every run, a call that returned because the stream ended had no message with its id read since it was registered |
| RpcConnProofs.ReturnedCallIsForgotten | internal/acprpc/conn.go:143-169 | in every run, a call that has returned, for whatever reason, is no longer registered |
| RpcConnProofs.GivenUpCallReturns | internal/acprpc/conn.go:143-169 | in any state, a call whose write fails or that is cancelled returns that very error by two steps of its own, and only its own entry is gone |
| RpcConnProofs.SendsAreSafe | internal/acprpc/conn.go:203-209 | in every run, each channel gets at most one send, none if closed, and the read loop's send never blocks |
| RpcConnProofs.NoSendAfterClose | internal/acprpc/conn.go:212-219 | over the rest of every run, a closed channel stays closed and gets no further send |
| RpcConnProofs.EveryCallCanReturn | internal/acprpc/conn.go:150-169 | once the stream has ended, every outstanding call can return by at most two of its own steps |
| RpcConnProofs.CallsAfterTheEndFail | internal/acprpc/conn.go:132-136 | a call started after the end returns at once and registers nothing |
| PathSafe.SanitizePathComponent | sdk/pathsafe.go:51-77 | the loop and the two follow-up escapes compute the specified component |
| PathSafe.IsReservedStem | sdk/pathsafe.go:92-98 | true exactly for device stems, in any case and with any extension |
| PathSafe.IllegalAre | sdk/pathsafe.go:79-88 | the illegal bytes are the control bytes and nine named characters |
| PathSafe.DevicesAre | sdk/pathsafe.go:37-45 | the reserved stems are the 22 device names, spelled out, in any case |
| PathSafe.SanitizedIsSafe | sdk/pathsafe.go:47-77 | for every byte string: no illegal byte or separator, no trailing dot or space, no reserved stem, and non-empty exactly when the input is |
| PathSafe.UnchangedIffSafe | sdk/pathsafe.go:47-77 | exactly the safe components are left alone |
| PathSafe.SanitizeIsIdempotent | sdk/pathsafe.go:49-50 | sanitizing twice is sanitizing once |
| PathSafe.SanitizeLosesNothing | sdk/pathsafe.go:58-74 | reading the escapes back gives the original name, if it held no percent sign |
| PathSafe.SanitizeRelPath | sdk/pathsafe.go:111-124 | non-empty segments sanitized one by one and joined |
| PathSafe.RelPathKeepsSegments | sdk/pathsafe.go:100-124 | the result is relative and splits into exactly the sanitized non-empty segments |
| PathSafe.JoinStaysBelowBase | sdk/pathsafe.go:105-110 | joined to any base, the path leads exactly its segments below the base |
| PathSafe.RelPathIsIdempotent | sdk/pathsafe.go:111-124 | sanitizing a relative path twice is sanitizing it once |

## Left out

- Corrupt `_meta.json`, unreadable files and failing stats: the index file is absent or well formed, and I/O errors appear only as the lock, write and commit faults of `IndexStore` and the failures and crashes of `IndexProtocol`.
- SkippedReloadIsSound: sessions that a corrupt turns file removed from memory are excepted, and the runs covered are those in which a load that swaps inside the bookkeeping window missed nothing, because the unrestricted statement is false.
- The step system runs one batch at a time in each instance, with any number of loads and reads beside it; concurrent batches over one session map are not modelled (`ApplyPlan` holds a lock per provider).
- TurnsAndMetaStayPaired: sessions whose meta commit failed or whose writer crashed are excepted until a later commit names them.
- RunEqualsFullParse: needs unread unterminated tails, files that only grow, a first cycle without watermark, no session key held by another source, and no stable id equal to a content hash in the session; the indexing time and the aggregate size and mtime stamp of sessions are not compared.
- EveryRunIsCurrent: one process and no failures; the conditions of RunEqualsFullParse and ResumedEqualsFull on files that stay from one cycle to the next.
- SessionIsFirstRecords: the content hash is taken to distinguish the records of the source.
- IdleSourcesAreCurrent: watermark and index stand for the same earlier snapshot, which EveryRunIsCurrent shows they do.
- AppliedPlanConverges: one process and no failures; records name their own source, and ids and source names are free of slashes, as directory and file names are.
- ComputePlan: the final sort of the actions; the convergence theorem covers every order.
- Reconcile.Provider.ApplyPlan: the coverage cache of skipped sources, health counters, results, failures, back-pressure accounting and the watermark file.
- CoverageSurvivesTornTailsIffUncounted: the tails of the later files are unread, as in the other coverage results.
- EveryCallCanReturn: that a call is eventually scheduled is not stated, only that nothing it waits for is missing; writes are assumed to end.
- JoinStaysBelowBase: slash-separated paths; the backslash join of Windows is not modelled, and the upper-casing of device names is the ASCII one, which no other letter maps into.
- The session parser's early stop by its callback, whose callers never ask for it, and scanner buffer limits.
- Quarantine files, log lines and rejection counters of the ingest parser.
- Integer widths: offsets, counters, generations and request numbers do not wrap.
- Listing, single-turn lookup, query parsing, excerpts, the HTTP and tool surfaces, ontology loading, and everything outside the parts named above.
