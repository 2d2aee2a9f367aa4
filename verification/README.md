# Memory-import engine: a verified model

This project models how YiQiao imports chat transcripts: how a transcript is cut into chunks, how
chunks are split again and replayed after failures, and how many workers in many processes commit
them to shared tables. It states what the code promises as theorems about all inputs, all runs and
all interleavings, and proves them with Dafny 4.11 (`dafny verify dfyconfig.toml`). Where the code
does not keep a promise, the model keeps the code's behaviour, names an input or a run that shows
it, and proves exactly when the promise holds.

The parts, each building on the ones before:

* **Tables and operations.** `ImportTables` gives every repository transaction as a function from
  tables to tables; `ImportRepository` is the class that performs them in place, statement by
  statement, where they have loops or several outcomes, and is proved equal to those functions.
  `WorkspaceSum` is the order-free sum it needs.
* **Leases.** `Fencing` runs any sequence of these operations with a clock and fresh owner ids;
  `LeaseRules` says when a lease is given, how long it lasts and what lands under it; `ClaimExclusion`, `JobLifecycle` and `WorkspaceBudget` prove exclusion, limits and budgets over
  such runs.
* **Commit protocol.** `CommitProtocol` gives each worker a program counter and lets every
  transaction, read and vector write be one step, with crashes, takeovers and zombie workers in
  between; `CommitSafety`, `CommitSteps` and `CommitTheorems` keep its invariant without late errors,
  `CommitVeil`, `CommitMirror` and `CommitLate` with them, `CommitPromise` states what follows for all
  runs, `CommitRecovery` what a recovery gives back and takes over, `CommitProgress` where a worker ends
  that keeps its lease, and `CommitExamples` shows the two situations in which a succeeded row
  does not stay so.
* **Chunker.** `Utf8`, `TextSplit`, `TextPieces`, `Chunking`, `TurnRules`, `ChunkMerge` and `ChunkWindows` go from
  text to overlapping chunks; `SplitChunk`, `SplitChildren`, `SplitTree` and `SplitLoops` split chunks and
  replay persisted split trees.
* **Runs.** `RunAccounting` interleaves workers on shared counters, `ProcessChunk` is the recursion
  of one worker, `ProgressRecount` and `ProgressTheorems` the counters as the server's hooks recount
  them, `AdaptiveConcurrency` the controller the workers share.
* **Around it.** `ConsistencyChecker`, `ConsistencyReport` and `CheckerSoundness` are the split-tree
  report and what a clean one implies, `SplitVersusChecker` compares it with the splitter;
  `QuotaPolicies` and `QuotaGuard` are the storage quota; `GraphIndex`, `GraphMeaning` and `GraphStore` the
  graph beside the memories; `PngNotice` the PNG branch of the notice tool.

Modelling conventions: one SQL transaction is one step; ids, keys, owners and hashes are natural
numbers and owner ids are fresh for each acquisition; time never goes back; the token estimator, the
text splitter inside the chunker, the import-key hash and the CRC are function parameters of which
only what is stated is assumed; model answers, exceptions and store outcomes are arbitrary. A
manifest's `job_id` column is the job of its `chunk`, since both are always written together. In the
statements about splitting, messages have text. The vector store is one that refuses a row whose id it
already has, as a plain insert into pgvector does, and nothing deletes vector rows; a store that
overwrites rows is not covered, and the durability of memory ids rests on this.

Findings where the code and its own promises differ:

* A raise from the progress recomputation after the success commit is handled like a failed attempt,
  so a succeeded chunk can be retried, split or failed: exactly when the handler still has a live lease
  at its first write (`CommitPromise.PromiseBrokenIff`). A retry is repaired by the next success
  (`CommitPromise.RetriesAreHarmless`); giving up leaves a wrong row if the worker then stops
  (`CommitPromise.GivenUpIff`). Until the next recount the job's counters count the chunk twice
  (`ProgressTheorems.LateErrorOvertakes`).
* The retry endpoint lists failed chunks before it takes the lease, so a slow request can reset a row
  another retry has brought to success (`CommitPromise.PromiseBrokenIff`, `CommitExamples.StaleResetHappens`).
* The total counts chunks, the recount counts rows, of which there is one per import key. The key does
  not include the file, so a conversation found in two files of one import gives chunks with equal keys
  and a job that ends below its total (`ProgressTheorems.EndedRunIsComplete`).
* Releasing a lease and ending a discard do not test the expiry (`Fencing.UnexpiringOpChangesIff`).
* A status update does not ask whether the job has ended, so a late one can revive a job beside a full
  project (`JobLifecycle.LimitExceededIff`).
* Splits that drop overlap, repeat a question or divide a message are rejected by the consistency
  checker (`SplitVersusChecker.SplitPassesChecker`, `SplitVersusChecker.OverlapIsRejected`).
* An over-long word or number cut next to its apostrophe or point makes a fallback part too heavy
  (`TextPieces.OneTokenLightIff`, `TextPieces.ContractionTooHeavy`).

## Model

| member | source | states |
|---|---|---|
| CommitPromise.CommitIsDurable | server/main.py:1936-2160 | after any run, any interleaving of workers, crashes, expired and taken leases, retries, skips and errors raised after the success commit, a chunk row that says succeeded has a succeeded manifest of the same job with the same memory ids, every one a stored vector row of that key with its one graph item, unless the handler of such a late error has given that very chunk up since |
| CommitPromise.PromiseBrokenIff | server/main.py:2156-2160 | after any run, such a chunk keeps its success and all of that over one more step, except in exactly two cases: the handler of a late error on that very chunk writes under a live lease, or a retry request resets the row, having it on a list it read before it took the lease |
| CommitPromise.GivenUpIff | server/main.py:2079-2155 | a chunk comes to be given up by exactly one step: the handler of a late error on it marks its manifest split, failed or released under a live lease while its row says succeeded; from then on row and manifest are at odds |
| CommitPromise.RetriesAreHarmless | server/chat_import.py:3061-3105 | so in every run in which no such handler gives up, succeeded chunks are durable, however often late errors make them be tried again under a live lease |
| CommitPromise.ExactlyOnce | server/main.py:1936-2160 | after any run, a project and key have at most one succeeded chunk that was not given up, and no memory id belongs to two of them |
| CommitLate.StepKeepsWhole | server/main.py:1936-2431 | every step of every run keeps the invariant of the protocol on an image of the state: without the workers inside such a handler, with the rows given up veiled, and with the keys the handlers touched struck from the history; a worker whose handler has written joins the image again |
| CommitMirror.CalmWork | server/main.py:1936-2431 | whatever any other worker does at any of its program points, it does in that image as well |
| CommitPromise.ManifestIsPermanent | server/main.py:1936-2160 | once such a chunk has been succeeded its manifest row never changes again, whatever runs, stops or retries afterwards, as long as no handler of a late error on that chunk writes under a live lease |
| CommitTheorems.StepKeeps | server/main.py:1936-2431 | every step of claim, store, update, retry, crash and takeover, except an error after the success commit, keeps that invariant |
| CommitTheorems.StepKeepsSuccess | server/main.py:1999-2160 | from any state of the invariant, not only reachable ones: a succeeded row stays so over a step except exactly the outdated reset |
| CommitExamples.LateErrorBreaksCommit | server/main.py:2156-2160 | after any run with a worker behind the success commit of a chunk that was not given up, and a live lease, a late error and giving the chunk up lead to a row that says succeeded beside a manifest that does not |
| CommitExamples.LateErrorHappens | server/main.py:2156-2160 | a run from an empty database that reaches the situation of that statement |
| CommitExamples.StaleResetHappens | server/main.py:3383-3440 | a run of two overlapping retry requests in which the first one resets a row that the second one has since brought to success |
| CommitSteps.ClaimKeeps | server/main.py:1936-1996 | the claim, its fallbacks for split, finished and own unfinished manifests, and the release and second claim keep the invariant |
| CommitSteps.StoreKeeps | server/main.py:2163-2389 | reconciliation, hash claims and the unfenced vector write keep it |
| CommitSteps.FinishKeeps | server/main.py:2390-2431 | settling hashes, queueing graph items, marking the manifest and recording the chunk, in that order, keep it |
| CommitSteps.UndoKeeps | server/main.py:2079-2155 | so do splits, failures, cancellation and retries |
| CommitSteps.SkipKeeps | server/main.py:2036-2078 | and the closing of duplicate and superseded chunks |
| CommitRecovery.ReleasedMeansNone | server/main.py:1973-1986 | after any run, a worker with a live lease that is about to claim again after recovering its own claim, or is closing a split, cancelled or superseded chunk, finds no hash row its chunk has merely claimed |
| CommitRecovery.ReleaseIsExact | server/import_repository.py:1662-1704 | at each of the three releases exactly the hash rows the chunk has merely claimed go, all others stay as they are, and each of those that went can be claimed again |
| CommitRecovery.UnclaimIsExact | server/main.py:2380-2387 | after a failed store exactly the claims of that attempt go |
| CommitRecovery.SettleIsExact | server/import_repository.py:1706-1776 | settling ends exactly the own claims of that conversation among the given hashes, each with its memory id, and touches no other row |
| CommitRecovery.SecondClaimReconciles | server/main.py:1948-1950 | whoever is given a manifest that was claimed before has to look for stored rows, and nobody else |
| CommitRecovery.StoredRowsAreTaken | server/main.py:2179-2232 | a later attempt, or one behind an earlier claim, never asks the model while rows of its key are stored: it takes over exactly those, or raises, or stops without its lease |
| CommitProgress.ClaimLeads | server/main.py:1936-1996 | where a claim under a live lease leads, by the manifest as it was: taken when absent, failed or released and not of a split; split again; resumed by its own job and skipped by others; looked into when it is the own open claim; else waited for or given up |
| CommitProgress.PeekLeads | server/main.py:1968-1979 | the own open claim is gone on with, reconciling, exactly when rows of the key are stored |
| CommitProgress.ChunkEnds | server/main.py:1936-2160 | a key nobody has claimed, under a lease that lasts, is committed by the worker's own steps: the extracted memories are stored under it beside all others, each with a graph item, and row and manifest say succeeded with exactly them |
| CommitProgress.RecoveryEnds | server/main.py:1968-1972 | when a worker died between insert and commit, the next one that keeps its lease commits exactly the stored rows and stores nothing again |
| CommitProgress.UndoEnds | server/main.py:2079-2126 | giving a chunk up leaves its manifest with the mark, its row with the matching status and its memory ids, and after a failure its hash claims |
| CommitProgress.SkipLeads | server/main.py:2036-2072 | closing a duplicate leaves every manifest there is alone; closing a superseded leaf goes on to finish that of its own job, or claims one |
| CommitProgress.SkipEnds | server/main.py:2036-2094 | such a leaf ends skipped without memories, with its manifest finished without memories |
| CommitProgress.TakeLands | server/import_repository.py:1578-1660 | a memory's hash becomes the chunk's claim exactly when it is free or released, and nothing else changes |
| CommitProgress.RaiseLeads | server/main.py:2374-2389 | an error within the store gives back the claims of the attempt first, any other goes to the handler at once |
| CommitProgress.HandlerLeads | server/chat_import.py:3061-3156 | the handler splits, fails or cancels the chunk, or leaves it to another attempt |
| CommitProgress.StartLeads | server/chat_import.py:2866-2876 | a chunk the run decided to skip when it started is closed, every other one starts with its row |
| CommitProgress.SkipStarts | server/main.py:2036-2060 | closing such a chunk first makes sure of its row, and only a superseded one gives hash claims back |
| CommitProgress.RetryLeads | server/chat_import.py:3061-3105 | an error that leaves another attempt keeps the claim and the duty to reconcile, counts the attempt and notes the retry on the row |
| CommitProgress.BusyLeads | server/main.py:1953-1996 | waiting for another chunk's claim starts over with the row |
| Fencing.FencedForever | server/import_repository.py:171-256 | once an owner has no live lease on a job, no fenced write it sends at any later time changes any row of any table |
| Fencing.WritesNeverInterleave | server/import_repository.py:171-256 | when one owner could write at some time and another one later, nothing the first one sends after that lands: fenced writes of two owners on one job never interleave |
| Fencing.DeadStaysDead | server/import_repository.py:634-669 | over any run a lease that expired or was taken is never live again for its old owner: renewal, reservation and release cannot bring it back |
| Fencing.FencedOpNeedsLease | server/import_repository.py:993-1163 | every fenced job, chunk, manifest, hash and graph operation without a live lease is the identity |
| Fencing.UnexpiringOpChangesIff | server/import_repository.py:822-991 | release and the two ends of a discard do not test the expiry: they change the row exactly when it still names the owner (and, for a discard, is still being discarded) |
| Fencing.ExpiredReleaseStillLands | server/import_repository.py:970-991 | a state in which an expired owner still changes a row by releasing |
| Fencing.TakenForever | server/import_repository.py:970-991 | once another owner has taken the job not even those three operations land again |
| LeaseRules.AcquiredIff | server/import_repository.py:634-669 | a run gets the lease exactly when the job is not ending, ended or cancelled and nobody holds it with a running lease |
| LeaseRules.RetriedIff | server/import_repository.py:671-761 | a retry gets it exactly when the job ended other than well, is not being discarded and the project has room; the job is then queued and its cancellation cleared |
| LeaseRules.GraphRetriedIff | server/import_repository.py:362-435 | a graph retry gets it exactly on a completed job whose graph is not, below the limit |
| LeaseRules.DiscardedIff | server/import_repository.py:763-817 | a discard gets it exactly on an ended job with a workspace that no other discard is working on |
| LeaseRules.LeaseLasts | server/import_repository.py:171-256 | a live lease on a job that has not ended lasts until it expires, over any run of what others send: nobody can take, shorten or end it, or end the job |
| LeaseRules.RenewedLasts | server/import_repository.py:940-968 | renewed in time it lasts for the whole new length |
| LeaseRules.ReleasedIsFree | server/import_repository.py:970-991 | given back, the lease can be taken at once by a run under a new owner id |
| LeaseRules.CancelStops | server/import_repository.py:895-938 | a request to cancel reaches exactly queued and running jobs, and until the next retry no run gets the lease, over any run of other operations |
| LeaseRules.DiscardEnds | server/import_repository.py:822-893 | completed, a discard leaves neither workspace nor bytes; given up it leaves both, and the next discard can start at once |
| LeaseRules.ManifestWritesLand | server/import_repository.py:1442-1498 | under a live lease a mark lands exactly on the manifest of the own job, keeping its attempts and, unless others are given, its memory ids, which a new claim keeps too |
| LeaseRules.ChunkWritesLand | server/import_repository.py:1066-1163 | under a live lease an upsert resets a row to pending unless it succeeded or was split, and an update keeps the memory ids unless it is given others |
| LeaseRules.QueueLands | server/import_repository.py:1796-1888 | queueing adds exactly the missing items as pending, changes none that is there, and makes the job's graph pending exactly when it added any |
| LeaseRules.ReportsLand | server/import_repository.py:488-1022 | under a live lease a reported status is recorded, the deletion of an upload deletes exactly that job and only while uploading, and clearing frees the workspace |
| LeaseRules.ReservationLands | server/import_repository.py:437-486 | a reservation is added and prolongs the lease exactly when the bytes of all jobs leave room for it |
| LeaseRules.MeasuredIff | server/import_repository.py:555-588 | bytes are corrected exactly when nobody holds the job with a running lease |
| ClaimExclusion.ClaimHandsOut | server/import_repository.py:1326-1440 | a claim succeeds only under a live lease and only on a manifest that is absent, failed or released, never on a succeeded or split one nor on a released row of a split chunk; it then names the claimer and counts one more attempt |
| ClaimExclusion.ClaimedStays | server/import_repository.py:1326-1498 | from a claim to the holder's own mark the row stays as it is, whatever else runs |
| ClaimExclusion.OneClaimAtATime | server/import_repository.py:1326-1498 | no other claim on the same project and key succeeds in between |
| ClaimExclusion.HashStays | server/import_repository.py:1578-1776 | a claimed hash stays with its holder until the holder ends it, a succeeded one for good |
| ClaimExclusion.OneHolderPerHash | server/import_repository.py:1578-1660 | so no hash has two holders and no stored memory is handed out again |
| ClaimExclusion.TakeWins | server/import_repository.py:1578-1660 | a hash can be taken under a live lease exactly when it is free or released |
| ImportRepository.ImportRepository.CreateJobWithActiveLimit | server/import_repository.py:299-344 | a row is added exactly below both limits; the active-job limit is reported before the storage budget, each with its numbers |
| ImportRepository.ImportRepository.AcquireJobRetryLease | server/import_repository.py:671-761 | exactly an ended, undiscarded job below the limit is queued again under the new owner |
| ImportRepository.ImportRepository.ReserveWorkspaceBytes | server/import_repository.py:437-486 | bytes are added exactly under a live lease and within the budget, which is summed over all jobs in a loop |
| ImportRepository.ImportRepository.ClaimManifest | server/import_repository.py:1326-1440 | insert, or update of a reclaimable row, or upgrade of an old released split, or nothing; or the lease is lost and nothing changes |
| ImportRepository.ImportRepository.ReleaseMemoryHashes | server/import_repository.py:1662-1704 | exactly the chunk's own unfinished claims among the given hashes are deleted |
| ImportRepository.ImportRepository.MarkMemoryHashesSucceeded | server/import_repository.py:1706-1776 | the loop over the hashes settles exactly the chunk's own claims of that conversation, each with its memory id, or raises and settles none |
| ImportRepository.ImportRepository.AddGraphItems | server/import_repository.py:1796-1888 | the loop inserts each missing item once, keeps existing ones, and flags the job exactly when it inserted any |
| ImportRepository.ImportRepository.SumWorkspaceBytes | server/import_repository.py:467-467 | the loop's sum is the sum over all jobs, whatever order it goes in |
| JobLifecycle.ActiveJobsWithinLimit | server/import_repository.py:299-435 | over all runs in which every process respects the limit and reports no progress after its own final status, no project ever has more active jobs than the limit |
| JobLifecycle.LimitExceededIff | server/import_repository.py:993-1022 | from any job table within the limit, one operation goes over it if and only if the project is full and a status update by the live lease holder revives an ended job |
| JobLifecycle.LateProgressExceedsLimit | server/import_repository.py:993-1022 | a state and a status update that do so |
| JobLifecycle.NothingStartsWhileDiscarding | server/import_repository.py:671-893 | from a discard lease to its completion or abandonment, also when discarders follow one another, no retry, graph retry or run lease of the job succeeds |
| JobLifecycle.DiscardCompletesOnce | server/import_repository.py:822-858 | after one completion no owner ever completes a discard of that job again |
| WorkspaceBudget.FilesWithinBudget | server/import_repository.py:437-588 | over all runs of create, upload, abort, expiry, run, retry, discard, startup scan and measurement, with other processes between erasing a directory and giving its bytes back, the files of a job stay within its reservation, and all files and all reservations within the budget |
| WorkspaceBudget.GivenBackMeansGone | server/main.py:2618-2644 | whoever takes the bytes of a job out of its row, the owner of a run, a discard or the startup scan without an owner, the directory is empty at that moment, although nothing looks at it: it was erased, and by lease and status nobody can have written since |
| WorkspaceBudget.StepWithinBudget | server/main.py:1734-1775 | every single step keeps both bounds and what they rest on: who may still upload, who erased what, and what the row says |
| WorkspaceBudget.WriteLands | server/import_repository.py:437-486 | a block is written and booked exactly under a live lease with room for it in the budget, else nothing happens |
| WorkspaceBudget.DiskAfter | server/main.py:1734-1775 | what is on disk changes by a block of an upload and by erasing, and by nothing else |
| WorkspaceBudget.MeasureLands | server/import_repository.py:555-588 | a measurement brings the row of a job nobody holds to what is on disk, and touches no other |
| WorkspaceBudget.EnqueueLands | server/import_repository.py:993-1022 | an upload ends by queueing its job under a live lease, and is given up without one |
| WorkspaceBudget.AbortEnds | server/import_repository.py:488-511 | an upload that gives up in time leaves neither files nor a job, and touches no other |
| WorkspaceBudget.BytesComeBack | server/main.py:2618-2644 | whoever erased a directory and still holds the job, its discard, or as the startup scan found it completed, does give its bytes back |
| TextSplit.SplitFallbackText | server/chat_import.py:1028-1053 | the parts concatenate to the text and none is empty; when over-long tokens hold no apostrophe or decimal point, every part weighs at most the limit by the estimator's own count of that part, and ends only in front of a token that would have taken it over the limit, or within an over-long one; a text that is one over-long token is cut into pieces of equal size |
| TextSplit.TokenIsLongest | server/chat_import.py:943-946 | a token is the longest word or number at its place, each perhaps of two parts joined by an apostrophe or a point, or else the single character |
| TextSplit.WeightIs | server/chat_import.py:1022-1025 | white space weighs nothing, a word or number a quarter of its characters, rounded up, any other character one |
| TextSplit.EstimateIs | server/chat_import.py:964-979 | the estimate is the number of tokens, with an encoder or without, but at least one |
| TextSplit.WeighShift | server/chat_import.py:964-979 | counting a part on its own gives what counting it inside the text gives |
| TextSplit.WeighStep | server/chat_import.py:964-979 | cutting behind a token changes neither the tokens nor the count in front of the cut |
| TextPieces.OneTokenLightIff | server/chat_import.py:1043-1049 | the parts of one over-long token are all within the limit, by the estimator's own count, if and only if no piece ends with its apostrophe or point, nor begins with it and has at least four times the limit minus two characters |
| TextPieces.PieceWeighs | server/chat_import.py:1022-1025 | what a piece counts on its own: as many as its characters make, and one more when the apostrophe or point stands at its edge |
| TextPieces.ContractionTooHeavy | server/chat_import.py:1043-1049 | with a limit of one, the word abcd'fgh comes out in two parts of which the second weighs two |
| TextSplit.SafeUtf8Boundary | server/chat_import.py:992-996 | the largest position at or below the given one that is no continuation byte |
| TextSplit.SplitEncodedText | server/chat_import.py:999-1019 | for any token lengths the parts concatenate to the text, none is empty, and they are cut at the last code point starts behind every full number of tokens, at all of those and nowhere else |
| Utf8.RoundTrip | server/chat_import.py:1004-1018 | strict decoding inverts encoding (sections 3 and 4 of RFC 3629) |
| Utf8.ContinuationIffInside | server/chat_import.py:992-996 | in encoded text a byte is a continuation byte exactly when no code point starts there |
| Utf8.SliceDecodes | server/chat_import.py:1015-1018 | the bytes between two starts decode to exactly the text between them |
| TextSplit.SplitAtomicText | server/chat_import.py:1056-1063 | lossless with and without an encoder, and with the cuts of the one that applies |
| TextSplit.SplitTextByTokens | server/chat_import.py:1066-1092 | lossless, and every part but the last is filled: it is a run of units within the limit that the next unit would overfill, or a piece of one over-long unit cut by itself |
| Chunking.BuildTurns | server/chat_import.py:1135-1172 | the loops compute the turns the following lemmas are about |
| Chunking.TurnsKeep | server/chat_import.py:1135-1172 | turns keep every fragment once and in order with exact costs, and none is over the limit when no single fragment plus 6 is |
| Chunking.GroupsStartWithQuestion | server/chat_import.py:1140-1153 | before the size bound a turn holds one question at most and asks it first, and every turn but the first begins with one |
| TurnRules.TurnsStart | server/chat_import.py:1140-1172 | of the turns themselves: one behind the first begins only at a question whose message is not the one asked last, or at a fragment that would have taken the turn in front over the limit; and no turn holds questions of two messages |
| TurnRules.ExchangeIsTurn | server/chat_import.py:1140-1172 | at every newly asked question a turn begins, and the question with all that follows up to the next one is one turn whenever it costs no more than the limit |
| Chunking.ExpandInOrder | server/chat_import.py:1136-1138 | fragments follow each other as their messages do, and within a message as the splitter gives them, numbered from 0, with role, time and source of the message |
| Chunking.ExpandKeeps | server/chat_import.py:1095-1099 | cutting long messages loses no text and moves none to another message |
| ChunkMerge.MergeFragments | server/chat_import.py:1215-1236 | the loop with its dictionary of positions merges fragments by source, or reports two roles for one source |
| ChunkMerge.MergeKeeps | server/chat_import.py:1215-1236 | with one role per source merging succeeds, leaves one message per source, and keeps each message's text in order |
| ChunkMerge.MergeIsOrdered | server/chat_import.py:1215-1240 | merging fails exactly when one source has two roles; else the messages come in the order of their first fragments, and each has the role, time and part number of that one and all the text of its source |
| ChunkWindows.PackTurns | server/chat_import.py:1270-1314 | windows whose cores are all turns in order, each in exactly one; overlaps no longer than configured, each the end of the window before; no window over the limit when no turn is; every window ends for one of the three reasons and could not have ended sooner, and repeats as many turns as are configured and fit; and both inner loops end |
| ChunkWindows.MakeRoom | server/chat_import.py:1287-1295 | making room ends although closing a window may hand back the same turns |
| ChunkWindows.AdaptiveChunkMessages | server/chat_import.py:1265-1315 | the same from messages to chunks: every chunk holds the text of its window message by message and exactly its core indices; and when messages have text and one role per source, every chunk is well formed, which is what all statements about splits and replays start from |
| ChunkWindows.CoresKeepText | server/chat_import.py:1265-1315 | the cores of all chunks together carry each message's text exactly once |
| SplitChunk.FindCut | server/chat_import.py:2405-2430 | the loop with running total and sets finds the least cut in the tuple order |
| SplitChunk.CutIsLeast | server/chat_import.py:2418-2430 | the chosen cut is below every other; so it neither separates an answer nor divides a message whenever some cut does neither |
| SplitChunk.CutIsMostEven | server/chat_import.py:2405-2430 | no cut separates an answer from its question unless every one does; among the rest none divides fewer messages than the chosen one; among those none leaves the two sides more even in tokens; and of equally even ones it is the first |
| SplitLoops.SplitMessageChunk | server/chat_import.py:2386-2480 | the whole split as the program runs it gives the children the lemmas are about |
| SplitLoops.FindContext | server/chat_import.py:2434-2455 | the question taken along is the last short one in front of the cut that has no part behind it, and only if the second half starts inside an answer |
| SplitChildren.TurnsToSplit | server/chat_import.py:2387-2400 | a chunk is cut between the turns of its core messages at half its size, from 1000 to 3000 tokens, and only when those are fewer than two between single pieces of at least 500 |
| SplitChildren.KeepInOrder | server/chat_import.py:2388-2393 | the core messages are taken in order |
| SplitChildren.ContextIsLast | server/chat_import.py:2434-2455 | the second child gets a context exactly when its side starts with an answer and in front of the cut there is a question of at most 500 tokens without a part behind it; then it gets the last of those |
| SplitChildren.SplitIsCut | server/chat_import.py:2386-2480 | there are no children exactly when there are fewer than two turns to cut between; otherwise two, one level deeper, and never a clash of roles |
| SplitChildren.SplitConserves | server/chat_import.py:2386-2480 | both cores are non-empty and their union is the parent's; the children's own text is the parent's core text message by message and in order; and each has strictly less of it |
| SplitChildren.SplitIsDisjoint | server/chat_import.py:2418-2430 | the cores are disjoint whenever some cut neither separates an answer nor divides a message |
| SplitChildren.SharedCoreIff | server/chat_import.py:2418-2430 | the children share a core index exactly when the chosen cut divides that message |
| SplitTree.ExpandIsVisit | server/chat_import.py:2483-2565 | for any statuses and an injective key hash, replay gives the leaves of the live run in the same order, or fails where it does, and never reports a cycle |
| SplitTree.LeavesKeepCore | server/chat_import.py:2528-2565 | the leaves carry exactly the root's core indices and, message by message and in order, its core text |
| SplitTree.LeafCount | server/chat_import.py:2841-2864 | there is one more leaf than there are splits below a root, and no leaf is a split chunk |
| SplitTree.SupersededLeaves | server/chat_import.py:2544-2549 | below a superseded split exactly the leaves that did not succeed are collected, without one none |
| SplitTree.LeavesWereNotSplit | server/chat_import.py:2537-2560 | no leaf of a successful replay has a key that was recorded as split, superseded or not |
| SplitTree.SupersededRoot | server/chat_import.py:2544-2549 | below a root recorded as a superseded split the collected keys are exactly those of its leaves that did not succeed |
| SplitTree.NotAnAncestor | server/chat_import.py:2550-2551 | a descendant's key is never an ancestor's, because its core text is shorter |
| SplitLoops.ExpandChunk | server/chat_import.py:2537-2560 | the recursion with its shared set equals the replay function, whose recursion ends for any status map |
| RunAccounting.RunConserves | server/chat_import.py:2815-3156 | with hooks that leave the counters alone, over every interleaving: total plus late errors equals processed plus open, resumed and dropped chunks; processed is imported plus skipped plus failed; total is the initial leaves plus splits |
| RunAccounting.ProcessedWithinTotal | server/chat_import.py:2815-3156 | with such hooks, in every state processed has one outcome each, and stays within total unless a success hook raised |
| RunAccounting.EndedRunIsComplete | server/chat_import.py:2893-2894 | with such hooks, an uncancelled run in which no success hook raised ends with processed equal to total, the initial leaves plus splits, if and only if no claim was answered as already succeeded |
| RunAccounting.RunAccountsForAll | server/chat_import.py:2815-3156 | an uncancelled run has a bounded number of steps, and when it can go no further it has ended, with total equal to initial leaves plus splits and that accounting |
| RunAccounting.RunIsBounded | server/chat_import.py:2815-3156 | no run is longer than its measure, through splits, retries and busy claims |
| RunAccounting.RunCounts | server/chat_import.py:2815-3156 | over any run every counter has grown by the number of the steps it stands for: imports, skips, splits, failures, retries |
| RunAccounting.StepCounts | server/chat_import.py:2961-3156 | a chunk is failed exactly at a claim that is busy for the last time or an error with no attempt behind it, and retried exactly at the others |
| RunAccounting.ChunkAhead | server/chat_import.py:2841-2864 | a split puts the two parts in front of the worker's other chunks, one level deeper and with the parent's size between them; success, skip and failure take exactly the first chunk away |
| RunAccounting.StaysWithinLimits | server/chat_import.py:2961-3156 | over any run that repeats no recorded split no chunk is split below the configured depth, nor claimed or tried more often than configured |
| RunAccounting.CancelledTakesNone | server/chat_import.py:3156-3172 | once cancelled a run takes nothing from the queue any more |
| ProgressTheorems.EndedRunIsComplete | server/main.py:1898-1917 | with the server's hooks, which recount the job's rows after every closed chunk, over every interleaving of increments, row writes and the two halves of a recount: an ended first run without late errors has processed and total both equal to the initial leaves plus the splits if and only if it worked on no key twice |
| ProgressTheorems.EndedRunEquation | server/main.py:1898-1917 | for first runs and for later ones that start with rows, some of them closed, some succeeded and found again: when a run that worked on no key twice has ended, processed is the total plus the closed rows of keys it did not work on, and split the splits of this run plus such split rows, through late errors too |
| ProgressTheorems.DistinctKeysComplete | server/main.py:2159-2160 | so a first run on distinct keys ends with processed and total both the initial leaves plus the splits |
| ProgressTheorems.EndedCountsAreRows | server/main.py:1898-1917 | an ended first run that found no row succeeded has in each counter the number of rows with its status |
| ProgressTheorems.CountedOnce | server/chat_import.py:2870-2895 | between two recounts a closed chunk adds one to processed and one to the counter of its outcome |
| ProgressTheorems.RowsAfter | server/main.py:1919-1940 | which steps write which row: claims and retries make it waiting unless it is finished, closing gives it its outcome, nothing else writes rows |
| ProgressTheorems.KnownBeforehand | server/chat_import.py:1352-1370 | the condition in terms of the prepared chunks: distinct keys of the chunks and all their possible parts are enough, and two equal keys among the chunks rule it out |
| ProgressTheorems.ProcessedWithinTotal | server/main.py:1898-1917 | in every state processed is imported plus skipped plus failed and the total is the initial leaves plus splits; without late errors processed stays within it |
| ProgressTheorems.RepeatedKeyUncounted | server/main.py:1938-1940 | two chunks with one key: the second is found succeeded, and the job ends at one of two |
| ProgressTheorems.LateErrorOvertakes | server/chat_import.py:3024-3040 | a late error makes processed exceed total until the next recount |
| ProgressRecount.StepKeepsRecounted | server/main.py:1899-1917 | under the lock, whoever recounts last reads the rows as they stay, although others write rows and increments between the reading and the writing half |
| ProcessChunk.ImportCounters.Process | server/chat_import.py:2815-3156 | one call accounts for one chunk and one more per split below it, and returns success exactly when none of them failed |
| ProcessChunk.ImportCounters.Attempts | server/chat_import.py:2961-3156 | the same for the retry loop |
| ProcessChunk.ImportCounters.ProcessChildren | server/chat_import.py:2841-2864 | the same for both children, the second one even after the first failed |
| AdaptiveConcurrency.AlwaysSteady | server/chat_import.py:2242-2330 | over every interleaving of workers that leave what they entered: 1 <= current <= target <= 4, the active count is the number of workers inside and within the target, and raises are paid for by four successes each |
| AdaptiveConcurrency.SteadyFromStart | server/chat_import.py:2242-2263 | all of this from a new controller on, whose target is the wanted number clamped to one and four |
| AdaptiveConcurrency.CooldownShortenedIff | server/chat_import.py:2306-2312 | a cooldown is shortened exactly by the one holder of the newest token finishing early, and then ends now |
| AdaptiveConcurrency.FailureLowers | server/chat_import.py:2281-2297 | behind any run a failure lowers the limit by one, down to one, exactly when it is pressure or another failure came since the last success; it then extends the cooldown to the doubled delay, and hands out a token newer than all others exactly when that is not shorter |
| AdaptiveConcurrency.SuccessRaises | server/chat_import.py:2314-2326 | behind any run a success raises the limit by one exactly below the target, outside a cooldown, and as the last of at least four successes, and twice the limit, with no failure and no raise among them |
| AdaptiveConcurrency.DelayDoubles | server/chat_import.py:2286-2289 | every further delay is twice the one before, up to the maximum |
| AdaptiveConcurrency.BackoffBounds | server/chat_import.py:2328-2330 | the wait lies between the doubled delay and the jittered maximum |
| AdaptiveConcurrency.BackoffGrows | server/chat_import.py:2328-2330 | and grows with the draw from the delay to the delay with its whole jitter |
| AdaptiveConcurrency.SettingsAreSound | server/chat_import.py:2252-2263 | sensible settings are kept, negative ones count as zero, and the longest delay is never below the first |
| AdaptiveConcurrency.Controller.TryAcquire | server/chat_import.py:2265-2274 | a worker enters exactly below the current limit and outside a cooldown |
| AdaptiveConcurrency.Controller.RecordFailure | server/chat_import.py:2281-2297 | pressure or a second failure lowers the limit, and a cooldown that is not shorter replaces the old one under a fresh token |
| AdaptiveConcurrency.Controller.CompleteBackoff | server/chat_import.py:2306-2312 | only the newest token ends a cooldown |
| AdaptiveConcurrency.Controller.RecordSuccess | server/chat_import.py:2314-2326 | the limit rises exactly after a long enough streak outside a cooldown |
| AdaptiveConcurrency.Controller.Release | server/chat_import.py:2276-2279 | the active count never goes below zero |
| ConsistencyReport.BuildSplitTree | scripts/verify_chat_import_consistency.py:177-289 | each of the 23 loop counters is the number of rows with that fault, and the verdict is clean exactly when none has one |
| ConsistencyReport.CheckPairs | scripts/verify_chat_import_consistency.py:255-289 | the eight counters over split rows with two children |
| ConsistencyReport.CheckProvenance | scripts/verify_chat_import_consistency.py:221-253 | the six counters over the last row of each key |
| ConsistencyReport.CheckParents | scripts/verify_chat_import_consistency.py:189-209 | the five counters over parent links |
| ConsistencyChecker.ProvenanceIndices | scripts/verify_chat_import_consistency.py:138-151 | the list is invalid exactly when it is missing, holds something else than integers, or repeats one |
| CheckerSoundness.CleanReportIsSound | scripts/verify_chat_import_consistency.py:460-505 | a report without split-tree violation means: parents lead every row to a root, the leaves below each root exactly partition its core, every leaf lies below its own root only, and leaves are as many as roots plus split rows |
| CheckerSoundness.CleanIff | scripts/verify_chat_import_consistency.py:177-289 | the report is clean if and only if keys are there and unique, parents are there, split and one level up, roots at level nought, every row is sound by itself and every split row with its two children |
| CheckerSoundness.CleanRowIsSound | scripts/verify_chat_import_consistency.py:221-253 | in a clean report every row lists its sources and its core as integers without repeats, the core among the sources, the bounds are the least and the greatest of each, and the position is one of its count |
| CheckerSoundness.CleanPairIsSound | scripts/verify_chat_import_consistency.py:255-289 | in a clean report every split row has exactly two children, the first and the second of two, in its conversation and file and one level down; they divide its core, cover its sources, share none of its core, and it keeps no state |
| CheckerSoundness.OutsideMeans | scripts/verify_chat_import_consistency.py:265-289 | the two containment counters count exactly the split rows with a child that lists a value its parent does not |
| ConsistencyChecker.CountIs | scripts/verify_chat_import_consistency.py:177-289 | a counter is the number of rows with its fault |
| CheckerSoundness.DepthsAreNatural | scripts/verify_chat_import_consistency.py:192-209 | no depth is negative, although only roots and steps are checked |
| CheckerSoundness.LeavesPartition | scripts/verify_chat_import_consistency.py:265-289 | the pairwise checks add up to a partition below every row |
| CheckerSoundness.LeafCount | scripts/verify_chat_import_consistency.py:464-470 | the leaf count follows from two children per split row |
| SplitVersusChecker.SplitPassesChecker | scripts/verify_chat_import_consistency.py:265-289 | a fresh split always passes coverage and containment; it doubles core indices exactly when the cut divides a message, loses sources exactly when the parent had overlap, and overlaps on the core exactly when a message is divided or a question repeated |
| SplitVersusChecker.OverlapIsRejected | scripts/verify_chat_import_consistency.py:265-289 | a chunk of two questions behind one message of overlap whose split the checker rejects |
| QuotaPolicies.Normalize | server/import_quota.py:77-111 | exactly snapshots with positive limits and distinct ids are accepted, and the policies come out in lock order |
| QuotaPolicies.Check | server/import_quota.py:176-201 | with every project counted once: success exactly when all policies fit, otherwise the first that does not with its numbers |
| QuotaPolicies.Resources | server/import_quota.py:150-150 | each scope of the policies once, in strictly increasing order |
| QuotaGuard.NeverDeadlocked | server/import_quota.py:141-214 | as long as any writer is not done some writer can take its next lock, check or write |
| QuotaGuard.LimitHolds | server/import_quota.py:141-214 | over every interleaving the stored memories of a project or organization never exceed a hard limit that every writer into it carries |
| QuotaGuard.CheckMeans | server/import_quota.py:176-201 | a writer that holds its locks goes on exactly when each of its policies has room for what it announced beside what is stored; refused, it stores nothing and gives its locks back |
| QuotaGuard.StoredIsWritten | server/import_quota.py:141-214 | over every interleaving a project stores what it had, plus what was written into it, less what was forgotten |
| QuotaGuard.StepKeepsLocks | server/import_quota.py:141-214 | the lock table always says exactly who holds which prefix of its scopes |
| GraphIndex.AlwaysAgrees | server/neo4j_graph.py:276-532 | after any sequence of upserts, batches of distinct memories and deletions, MENTIONS is the converse of HAS_MEMORY and RELATED_TO with its weight is exactly the declared relation |
| GraphIndex.BatchIsFold | server/neo4j_graph.py:346-473 | a batch of distinct memories equals its rows one by one in any order |
| GraphIndex.UpsertAgrees | server/neo4j_graph.py:276-349 | the four queries in sequence keep the agreement |
| GraphMeaning.UpsertMeans | server/neo4j_graph.py:276-322 | after a batch of distinct rows a row's memory mentions exactly its own entities, under its project, and is in exactly its own categories |
| GraphMeaning.UpsertSpares | server/neo4j_graph.py:276-322 | and no other memory's mentions or categories have changed |
| GraphMeaning.RelatedMeans | server/neo4j_graph.py:325-343 | in an agreeing graph two memories are related exactly when they differ, are of one project with a matching scope and mention a memory-kind entity in common, and the edge lists all those names |
| GraphMeaning.UpsertsRelate | server/neo4j_graph.py:276-343 | so two rows of one project with a common scope and a common memory-kind entity are related both ways, and its name is listed |
| GraphMeaning.DeleteMeans | server/neo4j_graph.py:495-508 | deleting takes away exactly that memory with its mentions, and of its project the entities nobody else mentions |
| GraphMeaning.DeleteFromCategories | server/neo4j_graph.py:476-508 | and of its project the categories no other memory lies in |
| GraphMeaning.DeleteSpares | server/neo4j_graph.py:476-508 | and nothing of another project |
| GraphMeaning.DeleteManyMeans | server/neo4j_graph.py:511-532 | deleting by filter takes exactly the memories of the project that have every given field as given |
| GraphMeaning.DeleteManyPrunes | server/neo4j_graph.py:511-532 | and leaves of the project exactly the entities and categories that some memory left there mentions or lies in |
| GraphIndex.PruneKeepsEdges | server/neo4j_graph.py:476-492 | pruning an agreeing graph removes nodes only |
| GraphIndex.PruneIsTight | server/neo4j_graph.py:476-492 | afterwards exactly the mentioned entities of the project remain |
| GraphStore.GraphStore.UpsertMemoriesBatch | server/neo4j_graph.py:346-374 | the row loops of the four queries give the batch the lemmas are about |
| GraphStore.GraphStore.StoreMemories | server/neo4j_graph.py:276-298 | nodes are merged in row order and all their old edges deleted |
| GraphStore.GraphStore.RelateMemories | server/neo4j_graph.py:325-343 | both directions of every edge found get the names found |
| GraphStore.GraphStore.DeleteMemory | server/neo4j_graph.py:495-508 | the memory, its edges and what they leave behind in its project go |
| GraphStore.GraphStore.DeleteMemories | server/neo4j_graph.py:511-532 | exactly the memories matching every given field go |
| GraphStore.GraphStore.PruneOrphans | server/neo4j_graph.py:476-492 | entities first, then categories |
| PngNotice.PngChunks | scripts/audit_modification_notices.py:517-543 | the loop returns the chunks or the first fault, as the lemmas use them |
| PngNotice.ParseTiles | scripts/audit_modification_notices.py:517-543 | a successful parse tiles the file: signature, then exactly the chunks read, a header first and the only end chunk last |
| PngNotice.ParseOfEncode | scripts/audit_modification_notices.py:517-543 | parsing an encoded file gives its chunks back, each in its place (sections 3.1 to 3.4 of RFC 2083) |
| PngNotice.ApplyInserts | scripts/audit_modification_notices.py:546-559 | without a notice, applying inserts one tEXt chunk second and changes nothing else |
| PngNotice.ApplyCases | scripts/audit_modification_notices.py:546-559 | applying leaves a well-formed file alone exactly when the notice is there and nothing else stands under its key, inserts exactly when nothing does, and fails in every other case |
| PngNotice.CheckCases | scripts/audit_modification_notices.py:588-598 | the check passes exactly when the notice is the second chunk and nothing else stands under its key |
| PngNotice.ApplyThenCheck | scripts/audit_modification_notices.py:588-598 | and then the check passes |
| PngNotice.ApplyTwice | scripts/audit_modification_notices.py:546-559 | applying twice equals applying once; afterwards the check passes exactly when there was no notice or it was already second |

## Left out

- Calls without a lease owner: job updates, claims and marks with `lease_owner=None` are not fenced and not part of the runs, except the startup scan's clearing of workspaces.
- CommitPromise.CommitIsDurable: says nothing of a chunk that the handler of a late error gave up under a live lease while its row said succeeded, until it is recorded as succeeded again; it speaks of runs with `skip_duplicates` on, and of one key being worked on once at a time within a run.
- ImportRepository: has no methods for operations that are one guarded update; `ImportTables` gives those as functions only.
- JobLifecycle.ActiveJobsWithinLimit: assumes that a process reports no progress after its own final status, which the job table itself does not enforce.
- JobLifecycle.NothingStartsWhileDiscarding: assumes that whoever discards a workspace does not set the job's status meanwhile.
- ImportTables.UpdateJob: sets the phase along with the status; of the phases only that of a discard matters to any guard, and no status update sets it.
- WorkspaceBudget.FilesWithinBudget: takes reserving and writing a block as one step, likewise measuring and correcting; another process between the two is not modelled, nor are extracted archives, which the code does not count.
- TextSplit.SplitFallbackText: the weight bound goes one way for texts of several tokens; behind an over-long token with an apostrophe the tokens of a part can differ from those of the text.
- TextSplit.SplitTextByTokens: takes the text already cut at paragraph and sentence ends, since the regular expression that does so is not modelled.
- RunAccounting.RunConserves: errors that end the whole run (a lost lease, an unrepeatable split) are left out, and hooks do not touch the counters.
- ProgressTheorems.EndedRunIsComplete: speaks of the first run of a job, without late errors, since a chunk counted twice can make up for one with a repeated key; later runs and late errors are in `EndedRunEquation`, on distinct keys. Cancellation and errors that end the run are left out, and which worker takes which chunk is left open.
- QuotaPolicies.Normalize: entries that are no mappings and unknown scope types are outside its types.
- QuotaGuard.LimitHolds: database advisory locks, which are keyed by a hash of the name, and row locks on policies are replaced by one lock per scope.
- GraphIndex.AlwaysAgrees: batches repeat no memory id; node properties other than scope and project, timestamps and relationship timestamps are left out, and string keys built from project, kind and name are taken to be distinct for distinct triples.
- Legacy manifest statuses `completed` and `imported` are not distinguished from `succeeded`.
- Equality of the hash table with stored memories: an exception after the vector write deletes hash claims, and resumed chunks do not restore their list of claimed hashes.
- Manifest and cross-store sections of the consistency report, fingerprints and the comparison of two reports: set equalities without the structure of the split tree.
- Text and JSON notices: they depend on the shape of many file types.
- HTTP routes, authentication, settings, logging, webhooks and Pydantic models.
- SQLAlchemy sessions, dialects, foreign-key cascades and the advisory-lock calls themselves.
- Model, embedding, vector-store and Neo4j driver calls, and the memory core behind them, which is not part of this model.
- Parsing of transcripts, redaction, date coercion, archives and the scoring of strong turn boundaries, which is an oracle here.
- Threads, sleeping and lease renewal as real time; they are arbitrary steps.
- The legacy character chunker, key schema inference, benchmark, smoke test and mock API.
