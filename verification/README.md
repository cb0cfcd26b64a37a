# FlexStore durability model

A Dafny model of FlexStore's durability control plane and of the byte path that depends on it, with
machine-checked proofs. `dafny verify dfyconfig.toml` checks the whole project.

## What is modelled

**Metadata store** (`Tables`, `Transactions`, `Stores`). The coordinator's tables are one
value, `Db`. Every transaction or stand-alone statement is one atomic step on it; a transaction that
returns an error leaves the tables unchanged. Foreign keys, partial unique indexes and the durability
trigger are part of the steps. Where a statement picks rows with `ORDER BY ... LIMIT`, the step takes
the picked rows as an arbitrary batch, so every choice is covered. `Stores` holds the transactions that
loop over rows, statement by statement, and ties each to its atomic step. `Invariants` proves
what every step keeps over every interleaving; `Visibility`, `Multipart`, `Layout`, `Uploads`, `Writing` and
`Lifecycles` build on it. `Reference` says once more, row by row and without the functions the transactions are
built from, when each transaction acts and what every row of every table holds afterwards; `Refinement` and
`RefinedCatalog` prove that the transactions do exactly that.

**Self-healing** (`Workers`, `Exclusion`, `Effects`, `Durability`, `Progress`, `Trim`, `Convergence`,
`Reclamation`, `Attempts`, `Collection`, `Reconcile`, `Projection`).
`Workers` adds the memory of any number of repair workers and collectors to the tables: which job each
holds, until when, and what it saw when it claimed it. Workers may stop at any moment and act only while
their lease lasts. `Effects` says what one transaction does to the rows of one chunk, `Durability` turns
that into fault tolerance over whole runs, `Progress` into progress of repair. `Projection` shows that a run of
the workers is a run of the store. `Witnesses` holds reachable states in which the code falls short.

**Storage node** (`ChunkFiles`, `Usage`). The chunk file protocol is a state machine with concurrent
writers and a crash possible between any two steps; a crash may leave any bytes in a file not yet
flushed and any directory entry written since the last directory fsync.

**Gateway** (`Splitting`, `Ranges`, `Fetching`, `Gateway`, `RoundTrip`, `Permanence`). Readers fragment a stream in any
way, nodes answer reads in any way, and the round trip still holds. `RoundTrip` takes it through the
metadata store: upload, lookup, layout query, download; `Permanence` puts any calm run between the two.

**Placement** (`Rendezvous`). Scores are arbitrary real numbers.

Clocks are a natural number that only grows. Node answers, reader fragmentation, copy outcomes, crashes
and cancellations are parameters. SHA-256 is a function parameter; only the byte-equality results of
`Gateway`, `RoundTrip` and `Permanence` assume something of it: that no other bytes share a digest with one of the
object's own chunks. `Orders` and `Sums` are the mathematics underneath: positions,
sorted listings and the first `r` elements of a finite order; sums over finite sets.

## What the code does not quite promise

Each of these is a lemma, with the exact condition where the behaviour depends on one.

- A repair that completes after its object was deleted leaves an AVAILABLE replica with no deletion
  job. The collector alone never removes it and the object is never purged
  (`Reclamation.LateRepairStrands`, `Reclamation.StrandedForever`). The collector can remove a replica if and
  only if it has a deletion job (`Collection.RemovableIff`), and reclaims a chunk if and only if each job was
  answered or failed its last attempt and each row had a job and was DELETING or on a node that answered
  (`Collection.ReclaimedIff`): a CORRUPT replica whose node never answers loses its job after eight attempts
  and stays.
- A FAILED repair job does not stop the scanner from making a second one, and two FAILED jobs on one
  chunk make every requeue statement that picks both abort on the unique index
  (`Convergence.ScannerIgnoresFailed`, `Convergence.RequeueIff`; reachable: `Witnesses.RequeueBlocked`).
- A stray-file deletion job queued for a node without a row makes the collector remove the replica a
  repair has meanwhile put there (`Durability.StrayJobUndoesRepair`). The danger is exactly a job at the
  destination (`Durability.DeliveryAimedIff`): the durability results allow stray-file jobs and exclude only
  copies that land where a deletion waits, and a replica is at risk if and only if it has a job
  (`Collection.RemovableIff`).
- Trimming ranks by used bytes only and can keep a copy on a DEAD node while removing the readable one
  (`Trim.TrimReadableIff`; reachable: `Witnesses.TrimHidesReadableCopy`).
- A chunk write that finds the chunk in place reports success even if the other writer has not yet
  synced the directory, so a crash can still undo it (`ChunkFiles.FoundButNotDurable`,
  `ChunkFiles.RetriedWriteLost`). It survives every later crash if and only if everything that has stood
  under the name since its last directory fsync holds the same bytes (`ChunkFiles.ExistingDurableIff`), which
  is so whenever no rename or removal is outstanding (`ChunkFiles.SettledSuccessSurvives`).
- A directory fsync that fails after the rename leaves a file that is never counted: usage is then
  under-reported, and a later delete may run into the zero clamps (`Usage.UnsyncedWriteUnderReports`). The
  counters always lie between the truth plus the copies replaced and that less the payloads left uncounted
  (`Usage.UsageOverRun`).
- A multipart session completed with a manifest leaves the parts it does not name writable if they were
  still uploading (`Lifecycles.UnnamedPartStaysWritable`). A chunk reserved on such a part belongs to a
  closed session (`Lifecycles.LateChunkForgotten`), and no run of any steps ever orphans it, drops it or
  forgets the session (`Lifecycles.ClosedSessionPinned`).
- A Range header made of digits gets the answer of section 2.1 of RFC 7233 if and only if, on an object with
  bytes, its positions fit in 64 bits and its suffix is not zero, and, on an empty object, it is valid and its
  suffix, if it is one, is zero (`Ranges.StandardIff`, `Ranges.ZeroSuffixIgnored`, `Ranges.EmptySuffixRefused`).
  A header off the grammar is acted on if and only if blanks, a plus sign or a minus sign before a zero last
  position are all that keeps it off (`Ranges.OffGrammarIff`, `Ranges.SignedPositionAccepted`); an empty object
  refuses anything with a dash in it (`Ranges.EmptyObjectRefuses`).
- A chunk of a visible object can be committed again with another size and digest: nothing ties a commit to an
  open upload. The object keeps its rows exactly as long as nobody does that (`Permanence.RecommitIff`,
  `Permanence.ObjectLasts`).

## Model

| member | source | states |
|---|---|---|
| Durability.FaultTolerance | internal/metadata/chunks.go:183-199 | over every run from a fresh system, if fewer than `m` distinct nodes are ever declared DEAD and the object's chunks were committed with at least `m` copies, trimmed to at least `m`, never reported corrupt or dropped, and never copied or written to where a deletion of them waits, then every chunk of every COMPLETE object is COMMITTED and readable from a node that never died; stray-file jobs are allowed |
| Durability.SurvivingCopies | internal/metadata/nodes.go:85-104 | in every such run each wanted committed chunk keeps at least `m` minus the number of nodes ever declared DEAD AVAILABLE replicas on never-dead nodes |
| Durability.NeverHurts | internal/metadata/repair.go:80-390 | from any state whose deletion jobs for the chunk all target DELETING replicas and whose in-lease repairers have seen every row of it, any interleaving of enqueue, claim, repair, rejoin, verify, trim and collection within leases keeps deletion jobs aimed and leaves at least min(rf, starting count) AVAILABLE replicas, less one per node declared DEAD meanwhile |
| Durability.NeverHurtsAmongStrays | internal/metadata/reconcile.go:248-263 | the same bound with stray-file jobs before and during the run, as long as no copy lands where a deletion waits |
| Durability.DeliveryAimedIff | internal/metadata/repair.go:364-390 | a delivered repair leaves every deletion job of the chunk off its AVAILABLE replicas if and only if no job waits at its destination |
| Durability.PlaySafe | internal/metadata/gc.go:17-109 | the safety of a chunk (no job aimed at a row that is not DELETING, in-lease repairers aware of every row, enough survivors) is kept by whole runs |
| Durability.ReactSafe | internal/coordinator/repair.go:284-438 | one event of any kind, by client, worker or collector, keeps a chunk safe |
| Durability.CommitSafe | internal/metadata/chunks.go:147-233 | a commit keeps a chunk safe; accepted, it leaves at least the minimum of AVAILABLE replicas; refused, it changes nothing |
| Durability.RepairAdds | internal/metadata/repair.go:364-390 | a completed repair adds exactly one AVAILABLE replica, on a node that had no row for the chunk, keeps deletion jobs aimed and closes its job |
| Durability.FinishGentle | internal/metadata/gc.go:48-59 | finishing a queued deletion costs no AVAILABLE replica when no job of the chunk targets a row that is not DELETING |
| Durability.FailGentle | internal/metadata/gc.go:76-109 | neither does failing one, with or without giving up |
| Durability.SoleRepairer | internal/metadata/repair.go:233-344 | two workers within their leases are never repairing one chunk |
| Durability.StrayJobUndoesRepair | internal/metadata/reconcile.go:248-263 | an orphan job queued before a repair to the same node is claimable after it and takes the new replica away again |
| Layout.ObjectSurvives | internal/metadata/objects.go:179-196 | fault tolerance as a reader sees it: the object's full layout is returned, with exactly chunk_count chunks in index order |
| Workers.LeaseExclusion | internal/metadata/repair.go:76-97 | in every reachable state no job and no deletion is held by two workers within their leases, no chunk has two active jobs, and no two workers hold queued jobs of one chunk |
| Exclusion.ChunkExclusion | internal/metadata/repair.go:233-344 | over every run that mints new identifiers for new chunks, no chunk has two repairers within their leases, even if its jobs or the chunk itself have gone meanwhile |
| Projection.PlayIsRun | internal/coordinator/repair.go:228-438 | a run of the system, with any number of workers and collectors stopping anywhere, leaves the tables where a run of the store's own steps leaves them |
| Projection.EventIsStep | internal/coordinator/repair.go:228-438 | each event of a worker or collector is the one store step its outcome calls for while its lease lasts, the last instant included, and nothing afterwards |
| Projection.MemoryMeans | internal/metadata/repair.go:233-344 | what each worker and collector remembers after any event: the job, every node with a row and the lease it saw when it took it, until it is done |
| Workers.PlayInv | internal/config/config.go:233-240 | tables and leases stay sound over every run with any number of workers that stop anywhere |
| Workers.PublicQueues | internal/metadata/repair.go:213-224 | no other transaction changes a job whose lease is running, removes it unless its chunk is purged, or touches a queued deletion |
| Workers.CrashedJobReturns | internal/metadata/repair.go:213-260 | a lost worker's job is claimable after reclaiming if and only if its lease has lapsed |
| Invariants.StepInv | internal/metadata/store.go:80-86 | every transaction keeps foreign keys, exact counters, one chunk per position, one visible version, no holes, one attempt per part number, a job for every DELETING replica and at most one active repair per chunk |
| Invariants.ReachableInv | migrations/0001_init.sql:50-130 | all of these hold in every state reachable from an empty database |
| RefinedCatalog.StepRefines | internal/metadata/store.go:80-86 | for every state and every transaction, every row of every table is afterwards exactly what the row-by-row reference says, and the clock too: which rows change, to what, and that no other does, acting or refused |
| RefinedCatalog.RunRefines | internal/metadata/store.go:80-86 | so it is at every step of every run |
| RefinedCatalog.MatchDetermines | internal/metadata/store.go:80-86 | the reference leaves nothing open but serial numbers of new deletion jobs and the availability counter, which `Invariants.StepInv` keeps exact |
| Refinement.Rows | internal/metadata/chunks.go:98-361 | a replica row after any step: who becomes AVAILABLE, UNAVAILABLE, STALE, CORRUPT, WRITING or DELETING, who goes, and that all others stay |
| Refinement.DeletionJobs | internal/metadata/gc.go:17-109 | a deletion job after any step: queued exactly where the step asks for one and none was, with no attempt yet and due at once; claimed, delayed, finished or given up as the collector says; else as it was |
| RefinedCatalog.Chunks | internal/metadata/chunks.go:30-343 | a chunk row after any step: reserved, reopened, committed, taken over by an assembly at its place, orphaned, purged, or as it was |
| RefinedCatalog.Objects | internal/metadata/objects.go:23-175 | an object row after any step: begun, shown, superseded, deleted, failed, assembled with the summed sizes and chunk counts its parts were completed with, purged, or as it was |
| RefinedCatalog.Sessions | internal/metadata/multipart.go:17-424 | a session row and a part row after any step |
| RefinedCatalog.Nodes | internal/metadata/nodes.go:85-104 | a node row after any step |
| RefinedCatalog.Jobs | internal/metadata/repair.go:80-596 | a repair job after any step: queued, claimed, closed, retried or failed at the cap, reclaimed, requeued, purged, or as it was |
| Refinement.AssemblyMeans | internal/metadata/multipart.go:219-338 | the assembly's conditions spelled out: an open session, some finished part, no part uploading or a manifest that names each finished part where its number puts it with no other ETag, and as many committed chunks as the parts declare |
| Refinement.CommitMeans | internal/metadata/chunks.go:147-233 | a commit is accepted if and only if chunk and nodes exist, the digest is 64 hex digits and enough replicas count once the failed ones are struck and the acknowledged ones added |
| Invariants.WriteCounts | migrations/0002_self_healing.sql:36-57 | the trigger keeps an exact AVAILABLE counter exact under any write of replica rows |
| Invariants.RetireKeeps | internal/metadata/chunks.go:345-361 | retiring chunks leaves no DELETING replica without a job |
| Invariants.TrimKeeps | internal/metadata/repair.go:142-202 | so does trimming |
| Invariants.CompleteMultipartCatalog | internal/metadata/multipart.go:203-386 | assembling an object keeps the catalogue whole |
| Invariants.RequeueJobs | internal/metadata/repair.go:434-454 | requeueing never gives a chunk a second active job |
| Visibility.StepVisible | internal/metadata/objects.go:316-344 | one step leaves the visible versions of a key as they were, replaces them by the version it publishes, or empties them for a delete: never anything in between |
| Visibility.NoGap | internal/metadata/objects.go:71-134 | a readable key stays readable over every run without a delete of it |
| Visibility.VisibleWhole | internal/metadata/chunks.go:116-142 | in every reachable state a key has at most one visible version, which owns exactly chunk_count chunks, all COMMITTED |
| Visibility.CompleteVisible | internal/metadata/objects.go:71-134 | an accepted completion makes its version the only visible one of its key and touches no other key |
| Visibility.AssemblyVisible | internal/metadata/multipart.go:340-365 | so does an assembly |
| Visibility.DeleteVisible | internal/metadata/objects.go:157-175 | a delete hides exactly its key |
| Multipart.AssembledBytes | internal/metadata/multipart.go:319-338 | whatever the chunks hold, the assembled object's bytes are the parts' bytes in part-number order, each in chunk-index order |
| Multipart.ContiguousIndices | internal/metadata/multipart.go:319-338 | its chunk indices are exactly 0, 1, ..., chunk_count - 1 |
| Multipart.CountCheckHolds | internal/metadata/multipart.go:335-338 | the check on the number of re-parented chunks cannot fail in a reachable state |
| Multipart.AssembledRow | internal/metadata/multipart.go:296-384 | the object takes the session's key and the totals of the parts, and the session is closed |
| Multipart.ManifestExact | internal/metadata/multipart.go:276-294 | a client manifest passes if and only if it lists the finished parts, each once, in number order, with matching ETags |
| Multipart.QuotedEtag | internal/metadata/multipart.go:289-292 | ETags match with or without quotes |
| Multipart.TrimMeans | internal/metadata/multipart.go:289-292 | of a client's ETag exactly the quotes at either end are ignored |
| Multipart.ChunksByIndex | internal/metadata/multipart.go:319-338 | the order of an owner's chunks is that of rising index |
| Multipart.PartsByNumber | internal/metadata/multipart.go:223-227 | the order of a session's finished parts is that of rising number |
| Writing.ReportStands | internal/metadata/multipart.go:136-170 | what a part was completed with, size, chunk count and ETag, is what it is counted with in an assembly, over every run that does not begin it anew |
| Trim.TrimSafe | internal/metadata/repair.go:142-202 | whatever the counter claims, a trim leaves at least min(AVAILABLE, rf) replicas and, acting, exactly that many; whoever it keeps has fewer used bytes than whoever it demotes, or as many and the lower id; each demoted replica has a job |
| Trim.TrimLeaves | internal/metadata/repair.go:177-189 | when it acts it keeps exactly the holders preceded by fewer than rf others, fewer used bytes first and then lower ids; otherwise it changes nothing |
| Trim.TrimExact | internal/metadata/repair.go:142-202 | with an exact counter it leaves exactly min(AVAILABLE, rf) |
| Trim.CountTrimLeaves | internal/metadata/repair.go:154-164 | the count-based form the comment rejects leaves one replica fewer per unit of drift |
| Trim.CountTrimSafeIff | internal/metadata/repair.go:154-164 | that form is safe if and only if the counter does not read high |
| Trim.CountTrimLosesData | internal/metadata/repair.go:154-164 | a drifted counter makes it destroy the only copy, where trimming by rank removes nothing |
| Trim.TrimReadableIff | internal/metadata/repair.go:177-189 | a trim that acts keeps a readable copy if and only if one of the rf holders with the fewest used bytes, lower ids first, is not DEAD |
| Witnesses.TrimHidesReadableCopy | internal/metadata/repair.go:177-189 | a state reachable from empty tables, by a write whose first target died before acknowledging and a retry, in which trimming keeps the copy on the DEAD node and condemns the only readable one |
| Convergence.Converge | internal/coordinator/repair.go:151-187 | with enough nodes without a row, scan, repair and trim end with every restorable chunk at exactly rf AVAILABLE replicas and every other chunk's rows unchanged |
| Convergence.RepairAll | internal/coordinator/repair.go:284-438 | repairing ends with no restorable chunk short and none raised beyond rf |
| Convergence.RepairOnce | internal/coordinator/repair.go:228-280 | scan, claim and completion of one job add one AVAILABLE replica on an eligible node without a row |
| Convergence.RepairCloses | internal/metadata/repair.go:364-390 | each repair lowers the summed distance from rf by exactly one |
| Convergence.TrimCloses | internal/metadata/repair.go:142-202 | each trim of an over-replicated chunk brings it to exactly rf and lowers the sum |
| Convergence.TrimAll | internal/coordinator/repair.go:168-180 | trimming ends with no listed chunk over rf |
| Convergence.ZeroNeverQueued | internal/metadata/repair.go:80-97 | a chunk without AVAILABLE replicas never gets a new job |
| Convergence.ScanQueues | internal/metadata/repair.go:80-97 | in every sound state a chunk gains a job if and only if it is in the batch, committed, wanted by its owner, has some but fewer than rf AVAILABLE replicas, and no pending or running job |
| Convergence.RecountHeals | internal/metadata/repair.go:598-616 | recounting makes every counter exact from any drift and changes no row |
| Convergence.ScannerIgnoresFailed | internal/metadata/repair.go:80-97 | a FAILED job does not keep the scanner from queueing the chunk again |
| Convergence.RequeueIff | internal/metadata/repair.go:434-454 | every eligible FAILED job of a batch is requeued if and only if no two of them share a chunk; otherwise none is |
| Witnesses.RequeueBlocked | internal/metadata/repair.go:434-454 | for every attempt cap, a state reachable from empty tables in which two FAILED jobs on one chunk keep another chunk's job FAILED, though alone it would be revived |
| Witnesses.ClaimThenFail | internal/metadata/repair.go:413-429 | a failed attempt is counted; the job returns after its delay or is FAILED at the cap, the unique index never blocks that, and nothing else changes |
| Progress.ShortfallShrinks | internal/coordinator/repair.go:151-187 | over any run without deaths that leaves the chunks in peace, with any number of workers, scans, trims and collections interleaved, the copies lacking at the end and those regained are together exactly the copies lacking at the start, and each delivery or promotion to a chunk that lacks a copy regains one |
| Progress.FullyRestored | internal/coordinator/repair.go:228-280 | every chunk has at least rf AVAILABLE replicas if and only if as many copies were regained, by whatever means, as were lacking |
| Progress.CopiesStay | internal/metadata/repair.go:80-390 | no single event takes a chunk below the copies it had, or below rf if it had more |
| Reclamation.BoundedRounds | internal/metadata/gc.go:17-109 | in any run the claim-and-outcome rounds of a job of a condemned chunk plus those it has left never exceed those it had |
| Reclamation.AtMostEightRounds | internal/coordinator/workers.go:148-173 | a job takes at most eight rounds, and is gone after eight, whatever the node answers |
| Attempts.AttemptsAreClaims | internal/metadata/gc.go:17-45 | over any such run the attempts recorded on a queued job grow by exactly the claims made on it, lost ones included |
| Attempts.UntriedKeepsTrying | internal/coordinator/workers.go:148-173 | a job not yet tried and never answered is still queued after seven claims, whoever makes them and however they end |
| Attempts.DeletedKeepsTrying | internal/metadata/objects.go:157-175 | so is the job of every replica of a deleted object |
| Reclamation.JobGoneIff | internal/metadata/gc.go:48-109 | over any run that leaves a condemned chunk undisturbed a deletion job of it is gone if and only if a node answered for it, at any attempt, or its last attempt failed, and no new job appears |
| Reclamation.SpentIsResolved | internal/coordinator/workers.go:148-173 | a job that has had all its rounds is one of these, whatever the node answered and however many claims were lost |
| Reclamation.CondemnedReclaimedIff | internal/metadata/gc.go:48-109 | over any such run a condemned chunk ends with no replica and no job if and only if each job it had was resolved in that sense |
| Reclamation.LateRepairStrands | internal/metadata/repair.go:364-375 | a repair finishing after its object was deleted leaves an AVAILABLE replica of a retired object with no job |
| Reclamation.StrandedForever | internal/metadata/gc.go:116-154 | such a replica outlives every run of the collector and its chunk is never purged |
| Reclamation.CollectorSkips | internal/metadata/gc.go:48-109 | no collector event touches a replica without a deletion job |
| Collection.RemovableIff | internal/metadata/gc.go:17-59 | some run of the collector removes a replica if and only if the replica has a deletion job |
| Collection.ReclaimedIff | internal/metadata/gc.go:48-109 | under collection alone a chunk is reclaimed if and only if each of its jobs was answered or failed its last attempt, and each row it had also had a job and was DELETING or on a node that answered, at whatever attempt |
| Collection.CollectedIff | internal/metadata/gc.go:48-109 | under collection alone any job, whatever state its row is in, is gone if and only if it was answered or failed its last attempt |
| Collection.CollectedRounds | internal/metadata/gc.go:17-109 | under collection alone the rounds of any job, whatever state its row is in, plus those it has left never exceed those it had |
| Lifecycles.EndedIsPurged | internal/metadata/gc.go:116-154 | deletion end to end, for an object deleted, overwritten, replaced by an assembly or aborted: once each deletion job of its chunks was answered, at any attempt, or failed its last one, and whatever else ran, a purge leaves neither the object nor a chunk of it |
| Lifecycles.CondemningEnds | internal/metadata/objects.go:316-344 | each of these four transactions retires or fails the object and marks every replica of its chunks DELETING |
| Lifecycles.RetiredForever | internal/metadata/objects.go:157-175 | over every run a retired or failed object never becomes visible or writable again and never gains a chunk |
| Reclamation.DeleteCondemns | internal/metadata/objects.go:157-175 | deleting a key retires its version and marks every replica of its chunks DELETING |
| Reclamation.OverwriteCondemns | internal/metadata/objects.go:316-344 | so does overwriting it |
| Reclamation.AbortCondemns | internal/metadata/objects.go:139-152 | aborting an upload fails it, orphans its chunks and marks their replicas DELETING |
| Reclamation.PurgeExact | internal/metadata/gc.go:116-154 | a picked object is purged if and only if it is retired or failed and all its chunks are reclaimed; its chunks go with it |
| Reclamation.PurgeOnlyReclaimed | internal/metadata/gc.go:116-154 | purging never forgets a chunk that still has a replica or a deletion job |
| Reclamation.ProcessDeletions | internal/coordinator/workers.go:148-173 | after one pass each claimed job is gone with its row, given up with its DELETING row, or delayed with one more attempt, and nothing else changed |
| Reconcile.ReconcileNode | internal/coordinator/reconcile.go:210-345 | for any page size of at least one each STALE replica of the node ends AVAILABLE if its file is there with the recorded size and, when checked, digest, dropped if there is no file, and CORRUPT with a job otherwise; files with no row and no write in flight are queued; other rows are untouched and each counter is the exact number of its kind |
| Reconcile.VerifyStale | internal/coordinator/reconcile.go:281-342 | the paged pass resolves exactly the STALE replicas of the node, each once and by that rule, and counts each kind exactly |
| Reconcile.VerifyPage | internal/metadata/reconcile.go:170-192 | one page resolves exactly the replicas up to its last entry; a short page is the last |
| Reconcile.SweepOrphans | internal/coordinator/reconcile.go:256-279 | exactly the files with no replica row and no write in flight are queued, and newly queued ones counted |
| Reconcile.NoGapInPage | internal/metadata/reconcile.go:170-192 | the cursor skips nothing between two entries |
| Reconcile.CountsAddUp | internal/coordinator/reconcile.go:281-342 | verified + phantoms + corrupt is the number of replicas resolved |
| Layout.LoadLayout | internal/metadata/chunks.go:264-329 | the query's rows are grouped into exactly one entry per chunk in index order with exactly its qualifying nodes |
| Layout.LayoutMeans | internal/metadata/chunks.go:264-329 | that layout spelled out, with and without the read filter: the owner's committed chunks, filtered those with a replica AVAILABLE on a known node that is not DEAD, by rising index, each with exactly its qualifying nodes by rising id |
| Layout.GroupUndoes | internal/metadata/chunks.go:285-326 | the grouping loop undoes the join, also for chunks without replicas |
| Layout.GroupRows | internal/metadata/chunks.go:285-326 | appending to the last entry computes that grouping |
| Layout.GetObjectIff | internal/metadata/objects.go:179-196 | in every reachable state a visible object is served if and only if each chunk has an AVAILABLE replica on a non-DEAD node, and then completely; otherwise the read is refused |
| Layout.GetObjectMissing | internal/metadata/objects.go:199-214 | a read finds nothing exactly when the key has no visible version |
| Stores.Store.RecordChunkTargets | internal/metadata/chunks.go:98-111 | the per-node loop leaves one WRITING row per target, or nothing if a target does not exist |
| Stores.Store.CommitChunk | internal/metadata/chunks.go:147-233 | the two per-node loops and the durability check equal the atomic commit, row by row: acknowledged targets AVAILABLE, failed ones UNAVAILABLE if they had a row, every other row as it was, the chunk COMMITTED with size and digest; refused, everything as it was |
| Writing.CommitExact | internal/metadata/chunks.go:147-233 | the atomic commit in those terms, for every state and every two sets of nodes, overlapping or not |
| Writing.CommitCompletes | internal/metadata/objects.go:71-134 | an accepted commit lets an upload complete if and only if every other chunk of it was committed, for exactly the count of its chunks |
| Writing.RetryReopens | internal/metadata/chunks.go:52-91 | reserving a taken position keeps the chunk's id, owner, index and digest, gives it the new size and sets it PENDING, and changes nothing else |
| Writing.RetryHoldsUp | internal/metadata/chunks.go:52-142 | from then on, over every run that neither commits that chunk nor starts the object anew, no completion of the object takes effect for any size or count and it is not shown |
| Writing.RetriedWrite | internal/metadata/chunks.go:52-233 | a retried position written to the end holds the new size and digest, COMMITTED, and counts the replicas it had, less the failed ones, plus the acknowledged ones |
| Stores.Store.TrimOverReplicated | internal/metadata/repair.go:115-208 | trimming a list of chunks counts exactly the replicas demoted, queues each and leaves every chunk at least min(before, rf) |
| Stores.Store.ClaimRepairJob | internal/metadata/repair.go:233-344 | the claim leases the job and loads what the worker needs |
| Stores.LoadTarget | internal/metadata/repair.go:287-337 | sources are exactly the readable replicas, occupied nodes all nodes with a row, and the counts are those of STALE and of not AVAILABLE rows |
| Reconcile.RejoinDistrusts | internal/metadata/reconcile.go:30-38 | after death and return no replica of the node is trusted, each formerly AVAILABLE one is STALE and other nodes are untouched |
| Uploads.UploadSucceeds | internal/metadata/chunks.go:52-233 | from any good state an upload of any number of chunks at fresh positions, each acknowledged by at least the minimum of nodes whichever targets failed, completes: it is the one visible version of its key, each chunk COMMITTED at its position with its size and digest and AVAILABLE on exactly the nodes that acknowledged it |
| Reclamation.BeginPartSupersedes | internal/metadata/multipart.go:64-133 | beginning a part fails every earlier attempt at its number, orphans its chunks and condemns their replicas |
| Reclamation.AbortMultipartCondemns | internal/metadata/multipart.go:390-424 | aborting a session fails all parts, orphans all chunks and condemns all replicas |
| Lifecycles.UnnamedPartStaysWritable | internal/metadata/multipart.go:255-275 | after an assembly a part of the session still accepts chunks if and only if it was uploading, which a manifest-less assembly rules out |
| Lifecycles.LateChunkForgotten | internal/metadata/chunks.go:52-91 | a reservation on such a part succeeds at any position and yields a chunk of a closed session |
| Lifecycles.ClosedSessionPinned | internal/metadata/gc.go:116-175 | over every run of any steps a chunk of a closed session that nobody orphaned is never live, never orphaned and never dropped, and its part and session are never forgotten |
| ChunkFiles.CrashAtomicity | internal/storage/chunkstore.go:155-231 | after any run with crashes anywhere, the final path holds nothing, the bytes of an entry a crash could already have left there at the start, or one whole payload that passed the size and digest checks |
| ChunkFiles.WriteOutcome | internal/storage/chunkstore.go:155-231 | a write nobody interrupts, copied in any pieces: with an acceptable size and digest the chunk reads as the payload and only its own entry can survive a crash, otherwise the chunk is as it was; the temp file is gone either way and no other chunk changes |
| ChunkFiles.RemoveOutcome | internal/storage/chunkstore.go:261-281 | a removal hides the chunk at once, a crash may still bring back what could have been there, and nothing else changes |
| ChunkFiles.SuccessSurvives | internal/storage/chunkstore.go:213-230 | once a write's directory fsync returns, its payload is read back after any crashes and restarts until the chunk is replaced or removed |
| ChunkFiles.RestartClears | internal/storage/chunkstore.go:478-489 | a restart empties the temp directory and changes no published file |
| ChunkFiles.StepKeeps | internal/storage/chunkstore.go:155-231 | every step of every writer, and every crash, keeps published entries whole and temp files private |
| ChunkFiles.VettedOrigin | internal/storage/chunkstore.go:186-211 | a writer about to rename has had its whole payload copied and checked, during the run or before it began |
| ChunkFiles.ExistingDurableIff | internal/storage/chunkstore.go:164-173 | over every history from a settled disk, a write that found the chunk in place survives every later crash until the chunk is replaced if and only if everything that has stood under the name since its last directory fsync or crash holds the same bytes |
| ChunkFiles.SettledSuccessSurvives | internal/storage/chunkstore.go:164-173 | in particular it survives when no rename or removal of the name lacks a later directory fsync |
| ChunkFiles.SinceExact | internal/storage/chunkstore.go:213-230 | the contents a crash could leave under a name are exactly those put there since its last directory fsync or crash |
| ChunkFiles.FoundButNotDurable | internal/storage/chunkstore.go:164-173 | between another writer's rename and its directory fsync that fails |
| ChunkFiles.RetriedWriteLost | internal/storage/chunkstore.go:164-173 | a one-byte write, its retry and a crash that loses it |
| Usage.ChunkStore.Write | internal/storage/chunkstore.go:155-231 | when a write finds the chunk, is rejected or is stored, and the files it leaves, from any counters; the counters drift from the truth by the size of the copy replaced, less the payload when the directory fsync fails, and by nothing else |
| Usage.ChunkStore.Delete | internal/storage/chunkstore.go:261-281 | from any counters a delete keeps the drift if and only if the counters hold at least the file, and otherwise the zero clamp writes off exactly the difference |
| Usage.ChunkStore.Scan | internal/storage/chunkstore.go:451-476 | a scan makes both counters exact |
| Usage.UsageOverRun | internal/storage/chunkstore.go:451-476 | from a fresh scan, over any sequence of writes and deletes with any directory fsyncs failing, the counters exceed the truth by the copies replaced, less the payloads left uncounted, plus what the clamps wrote off, so they are at most the truth plus the copies replaced and at least that less the uncounted payloads; with every fsync succeeding they exceed it by exactly the copies replaced |
| Usage.RunBalanced | internal/storage/chunkstore.go:355-366 | the clamps never write off more than was left uncounted |
| Usage.SyncedExact | internal/storage/chunkstore.go:213-230 | when every directory fsync succeeds no clamp ever fires and usage is never under-reported |
| Usage.UnsyncedWriteUnderReports | internal/storage/chunkstore.go:222-226 | a failed directory fsync leaves one byte on disk and none counted |
| Splitting.SplitAll | internal/chunking/chunking.go:68-104 | however a cleanly ending stream is fragmented, its chunks come out with indices 0, 1, ..., their number is the planned one, and the stream is refused if and only if it exceeds a positive limit |
| Splitting.Splitter.Next | internal/chunking/chunking.go:68-104 | the next chunk is the next full buffer or the shorter rest; ends, limit and read errors are told apart |
| Splitting.ReadFull | internal/chunking/chunking.go:73-87 | the buffer is filled with exactly the next bytes whatever the reader's cuts, zero-length reads and early EOF included |
| Splitting.ChunksJoin | internal/chunking/chunking.go:64-104 | the chunks join to the stream and all but a non-empty last one are full |
| Splitting.ChunksPlanned | internal/chunking/chunking.go:114-119 | their number is PlanChunks of the size |
| Ranges.StandardIff | internal/gateway/rangereq.go:43-110 | for every pair of digit strings and every size the code gives the answer of section 2.1 of RFC 7233 if and only if, on an object with bytes, the positions fit in 64 bits and a suffix is not zero, and, on an empty object, the header is valid and a suffix is zero |
| Ranges.ParseClosed | internal/gateway/rangereq.go:92-108 | "bytes=a-b" for every a, b and size: cut off at the end, unsatisfiable when a lies beyond it, ignored when reversed or beyond 64 bits |
| Ranges.ParseOpenEnded | internal/gateway/rangereq.go:81-90 | "bytes=a-" for every a and size |
| Ranges.ParseSuffix | internal/gateway/rangereq.go:70-79 | "bytes=-n" for every n and size: the last n bytes or the whole object, ignored for zero and beyond 64 bits |
| Ranges.ParseInBounds | internal/gateway/rangereq.go:43-110 | any resolved range lies inside the object |
| Ranges.SpaceMeans | internal/gateway/rangereq.go:51-61 | the blanks stripped are exactly the characters with the Unicode property White_Space |
| Ranges.ActedOnIff | internal/gateway/rangereq.go:43-110 | for a non-empty object the code acts on a header if and only if the header is a digit header, possibly with blanks and signs, that it acts on |
| Ranges.OffGrammarIff | internal/gateway/rangereq.go:43-110 | a header off the grammar is acted on if and only if blanks, a plus sign or a minus sign before a zero last position are all that keeps it off, and then like the digits alone |
| Ranges.SignedPositionAccepted | internal/gateway/rangereq.go:92-108 | a plus sign before any first position is off the grammar and makes no difference |
| Ranges.ZeroSuffixIgnored | internal/gateway/rangereq.go:70-79 | a zero suffix, unsatisfiable by the standard, is ignored |
| Ranges.EmptySuffixRefused | internal/gateway/rangereq.go:62-66 | a non-zero suffix of an empty object, which the standard satisfies with all of it, is refused |
| Ranges.EmptyObjectRefuses | internal/gateway/rangereq.go:43-66 | for an empty object every single-range header with a dash in it is unsatisfiable and every other ignored |
| Ranges.SelectChunks | internal/gateway/rangereq.go:131-154 | the selected spans are together exactly bytes start..end, for any chunk sizes including empty ones |
| Ranges.AllChunks | internal/gateway/rangereq.go:169-175 | the full-width spans are the whole object |
| Ranges.ObjectSize | internal/gateway/rangereq.go:160-166 | the summed sizes are the object's length |
| Fetching.Fetch | internal/gateway/chunkreader.go:85-132 | data is returned if and only if a replica before any cancellation delivers a clean stream of the recorded length and digest, and it is the first such; a replica is reported if and only if it was tried before the read ended and sent a complete stream of the wrong length or digest, or more than the recorded length; otherwise the read has no replica |
| Fetching.FetchFrom | internal/gateway/chunkreader.go:134-188 | one attempt is good if and only if the node sent a clean stream of exactly the recorded length and digest, and corrupt if and only if it sent too much or a clean stream that does not match |
| Fetching.GoodReplicaSuffices | internal/gateway/chunkreader.go:94-100 | an uncancelled read succeeds whenever some listed replica serves good bytes |
| Fetching.ReportsAreCorrupt | internal/gateway/chunkreader.go:108-127 | exactly the corrupt replicas tried are reported, in order, never a merely unreachable one |
| Fetching.ReportedOnce | internal/gateway/chunkreader.go:108-127 | each at most once |
| RoundTrip.PutThenGet | internal/gateway/objects.go:84-167 | a cleanly ending stream within the limit, uploaded through the metadata store to any good state, becomes the visible version of its key, and reading the key returns it byte for byte, and any range of it as exactly those bytes with their Content-Length, as long as each chunk was acknowledged by a live node that still serves it |
| Permanence.PutRunGet | internal/gateway/objects.go:84-167 | put, then anything, then get: from any sound system the stream comes back byte for byte, and any range of it as exactly those bytes, after every run that leaves the object visible, commits no other bytes for its chunks, leaves them in peace and declares fewer than the minimum number of nodes DEAD, as long as nodes that never died serve what they hold; the others may answer anything |
| Permanence.ObjectLasts | internal/metadata/chunks.go:147-233 | over every run in which no chunk of it is committed again with another size or digest, a COMPLETE object keeps its row and exactly its chunk rows until it is retired |
| Permanence.RecommitIff | internal/metadata/chunks.go:147-233 | an accepted commit of a chunk of a COMPLETE object leaves the object as it was if and only if it repeats size and digest |
| RoundTrip.Get | internal/gateway/objects.go:84-167 | in any good state a read finds nothing exactly when the key has no visible version, never delivers a wrong byte whatever the nodes answer, and delivers exactly what the Range header asks for when each chunk has a readable node that serves it |
| RoundTrip.UploadOrder | internal/metadata/chunks.go:264-329 | an upload's chunks are listed in the order they were written |
| Gateway.GetObject | internal/gateway/objects.go:84-167 | status, length and body for any Range header; a range is honoured only when the recorded size is the chunks' size, and a failed download has sent only a prefix of the right bytes |
| Gateway.StreamUpload | internal/gateway/handler.go:79-168 | the recorded layout holds length and digest of exactly the stream's chunks; size, count and ETag are the stream's; each failure has its cause, over the limit, client gone or a chunk nobody stored, and has recorded exactly the chunks before it |
| Gateway.StreamDownload | internal/gateway/handler.go:201-236 | whatever the nodes answer, the client receives a prefix of the true bytes, and all of them on success |
| Rendezvous.SelectNodes | internal/placement/rendezvous.go:42-82 | exactly R nodes, each healthy or tolerably suspect with room and not excluded, best first, and no such node left out has a higher score than one chosen, nor the same score and a lower id; an error exactly when the request is invalid or there are fewer than R such nodes |
| Rendezvous.Rank | internal/placement/rendezvous.go:174-191 | the ranking lists every eligible node once, by score and then id |
| Rendezvous.EligibleNodes | internal/placement/placement.go:141-165 | exactly the nodes that pass health, capacity and exclusion |
| Rendezvous.OrderIndependent | internal/placement/rendezvous.go:17-20 | two selections from the same nodes listed in different orders return the same nodes in the same order, or the same error |
| Rendezvous.LeaveMovesOne | internal/placement/rendezvous.go:21-24 | removing a node changes nothing unless it was selected, and then only adds the next-ranked node |
| Rendezvous.JoinMovesOne | internal/placement/rendezvous.go:21-24 | adding a node replaces at most one member and nothing else moves |

## Left out

- The Weighted placement strategy, node weights, `hashUnitInterval` and `mix64`: scores are arbitrary numbers.
- Isolation levels and row locks: each transaction or statement is one atomic step.
- The in-flight counters of `pickDestination`, the retry delay of `backoffFor` and idle polling: they bound load, not correctness; a repair destination is any node outside the occupied ones.
- Reconciliation jobs and their leases, `sweepStaleNodes` and reconciliation concurrent with other writers of the same node's rows: `ReconcileNode` covers one pass on its own.
- Probing a phantom source after a failed copy: it is the drop step, which the fault-tolerance results exclude.
- Object versions, ETags of objects, content types, timestamps and everything that selects by age: a batch may hold any qualifying row.
- Caches, health classification, heartbeats, bucket and key validation, HTTP and gRPC plumbing, metrics and the dashboard.
- Placement of the chunks of an upload by the coordinator: `StreamUpload` and `RoundTrip.Put` take the acknowledging nodes as given, and `RoundTrip.Put` makes the metadata calls after the bytes instead of between them.
- Durability of newly created fan-out directories (an fsync settles every entry of the leaf directory), disk-capacity figures and inventory walks.
- Stopping a collector pass between two jobs: `ProcessDeletions` covers the whole pass, `Workers` the lost collector.
- Rendezvous.Rank: the library sort is modelled as insertion into a sorted list; only its result matters.
- Convergence.Converge: repairs are done one chunk at a time in any order, and the jobs of other workers are waited for, not raced; `Progress` covers workers that race. There the copies lacking shrink, not the distance from rf: a node that comes back, or a repair that lands after one did, adds surplus until a trim takes it away.
- Workers.LeaseExclusion: says nothing of a worker whose job is no longer queued; `Exclusion.ChunkExclusion` does.
- Progress.ShortfallShrinks: promises nothing for chunks reported corrupt or dropped during the run.
- Usage.ChunkStore.Write: writes and deletes are sequential, as the accounting claim is; concurrent writers are in `ChunkFiles`.
