/**
 Scan, repair and trim bring every readable chunk to exactly the replication factor.
 */
module Convergence {
  import opened Tables
  import opened Transactions
  import opened Invariants
  import opened Effects
  import opened Trim
  import opened Sums
  import opened Durability
  import Reference
  import RefinedCatalog

  /** Committed, wanted, and with an AVAILABLE replica on a node that is not DEAD to copy from. */
  predicate Restorable(db: Db, c: ChunkId) {
    Standing(db, c) && exists n :: n in AvailableNodes(db.replicas, c) && n in db.nodes && db.nodes[n].health != Dead
  }

  function Wanted(db: Db): set<ChunkId> {
    set c | c in db.chunks && Restorable(db, c)
  }

  /** How far a chunk is from the replication factor. */
  function Gap(replicas: map<Loc, ReplicaState>, rf: nat): ChunkId -> nat {
    (c: ChunkId) =>
      var have := |AvailableNodes(replicas, c)|;
      if have < rf then rf - have else have - rf
  }

  ghost function Distance(replicas: map<Loc, ReplicaState>, cs: set<ChunkId>, rf: nat): nat {
    Sum(cs, Gap(replicas, rf))
  }

  /** Changing one chunk's replicas changes the distance by that chunk's share. */
  lemma DistanceStep(before: map<Loc, ReplicaState>, after: map<Loc, ReplicaState>, cs: set<ChunkId>, c: ChunkId,
                     rf: nat)
    requires c in cs
    requires forall k | k in cs && k != c :: AvailableNodes(after, k) == AvailableNodes(before, k)
    ensures Distance(after, cs, rf) - Gap(after, rf)(c) == Distance(before, cs, rf) - Gap(before, rf)(c)
  {
    SumDrop(cs, Gap(after, rf), Gap(before, rf), c);
  }

  /** Only rows of this chunk differ. */
  ghost predicate OnlyRowsOf(before: map<Loc, ReplicaState>, after: map<Loc, ReplicaState>, c: ChunkId) {
    forall l: Loc | l.chunk != c ::
      (l in after <==> l in before) && (l in before ==> after[l] == before[l])
  }

  lemma OtherChunks(before: map<Loc, ReplicaState>, after: map<Loc, ReplicaState>, c: ChunkId, k: ChunkId)
    requires OnlyRowsOf(before, after, c) && k != c
    ensures AvailableNodes(after, k) == AvailableNodes(before, k) && RowNodes(after, k) == RowNodes(before, k)
  {
  }

  // ---------------------------------------------------------------- one repair

  /** The chunk's job once the scanner has seen the chunk: the queued one, or a new one. */
  lemma EnqueueFinds(db: Db, c: ChunkId, rf: nat)
    requires NeedsRepair(db, c, rf)
    ensures HasActiveJob(EnqueueRepairs(db, rf, {c}), c)
  {
    var d := EnqueueRepairs(db, rf, {c});
    if HasActiveJob(db, c) {
      var j :| j in db.jobs && j.chunk == c && Active(db.jobs[j]);
      assert d.jobs[j] == db.jobs[j];
    } else {
      var j := JobId(c, db.serial);
      assert j in NewJobs(db, rf, {c}) && d.jobs[j] == JobRow(JobPending, 0, 0, db.now);
    }
  }

  /**
   The scanner's choice: a chunk in the batch gains a job if and only if it is committed and wanted by its owner,
   some but too few of its replicas are AVAILABLE, and no job of it is pending or running.
   */
  lemma ScanQueues(db: Db, rf: nat, batch: set<ChunkId>, c: ChunkId)
    requires Inv(db)
    ensures (exists j :: j in EnqueueRepairs(db, rf, batch).jobs && j !in db.jobs && j.chunk == c) <==>
      && c in batch && c in db.chunks && db.chunks[c].state == Committed
      && Reference.WantedBy(db, db.chunks[c].owner) && 0 < |AvailableNodes(db.replicas, c)| < rf
      && !exists j :: j in db.jobs && j.chunk == c && db.jobs[j].state in {JobPending, JobRunning}
  {
    ScanExact(db, rf, batch, c);
    NewJobIff(db, EnqueueRepairs(db, rf, batch), rf, batch, c);
  }

  lemma NewJobIff(db: Db, d: Db, rf: nat, batch: set<ChunkId>, c: ChunkId)
    requires OneJob(db) && d == EnqueueRepairs(db, rf, batch)
    ensures (exists j :: j in d.jobs && j !in db.jobs && j.chunk == c) <==> Reference.Scans(db, rf, batch, c)
  {
    var next := JobId(c, db.serial);
    forall j: JobId | j.chunk == c && j !in db.jobs
      ensures j in d.jobs <==> j == next && Reference.Scans(db, rf, batch, c)
    {
      NewJobHere(db, rf, batch, j);
    }
    assert next !in db.jobs;
  }

  lemma NewJobHere(db: Db, rf: nat, batch: set<ChunkId>, j: JobId)
    requires j !in db.jobs
    ensures j in EnqueueRepairs(db, rf, batch).jobs <==>
      j.serial == db.serial && Reference.Scans(db, rf, batch, j.chunk)
  {
    RefinedCatalog.EnqueuedJob(db, rf, batch, j);
  }

  lemma ScanExact(db: Db, rf: nat, batch: set<ChunkId>, c: ChunkId)
    requires CountersExact(db) && ReplicaRefs(db)
    ensures Reference.Scans(db, rf, batch, c) <==>
      && c in batch && c in db.chunks && db.chunks[c].state == Committed
      && Reference.WantedBy(db, db.chunks[c].owner) && 0 < |AvailableNodes(db.replicas, c)| < rf
      && !exists j :: j in db.jobs && j.chunk == c && db.jobs[j].state in {JobPending, JobRunning}
  {
  }

  /** Recounting makes every counter exact whatever it had drifted to, and changes no row. */
  lemma RecountHeals(db: Db)
    ensures var d := VerifyCounters(db); CountersExact(d) && d == db.(available := d.available)
    ensures VerifyCounters(db).available.Keys == db.available.Keys
    ensures CountersExact(db) ==> VerifyCounters(db) == db
  {
  }

  /** Late enough for the job's lease and delay to have passed. */
  function Patience(db: Db, j: JobId): nat
    requires j in db.jobs
  {
    db.jobs[j].lease + db.jobs[j].due + 1
  }

  lemma Ripe(db: Db, j: JobId)
    requires j in db.jobs && Active(db.jobs[j]) && j.chunk in db.chunks
    ensures Claimable(ReclaimLeases(db.(now := db.now + Patience(db, j))), j)
  {
  }

  /** Chunks no AVAILABLE replica is left of are never queued. */
  lemma ZeroNeverQueued(db: Db, c: ChunkId, rf: nat, batch: set<ChunkId>, j: JobId)
    requires CountersExact(db) && AvailableNodes(db.replicas, c) == {}
    requires j in EnqueueRepairs(db, rf, batch).jobs && j.chunk == c
    ensures j in db.jobs
  {
    assert |AvailableNodes(db.replicas, c)| == 0;
  }

  /** The catalogue and the nodes, on which restorability depends besides the rows. */
  predicate SameShape(a: Db, b: Db) {
    && a.nodes == b.nodes && a.objects == b.objects && a.uploads == b.uploads && a.parts == b.parts
    && a.chunks == b.chunks
  }

  lemma RestorableStays(a: Db, b: Db, c: ChunkId)
    requires SameShape(a, b) && AvailableNodes(a.replicas, c) <= AvailableNodes(b.replicas, c)
    ensures Restorable(a, c) ==> Restorable(b, c)
  {
  }

  /** A repair of one chunk, or a trim that keeps a source, changes no chunk's restorability. */
  lemma WantedStays(a: Db, b: Db, c: ChunkId)
    requires SameShape(a, b) && OnlyRowsOf(a.replicas, b.replicas, c) && (Restorable(a, c) <==> Restorable(b, c))
    ensures Wanted(b) == Wanted(a)
  {
    forall k | k in a.chunks ensures Restorable(a, k) <==> Restorable(b, k) {
      if k != c {
        OtherChunks(a.replicas, b.replicas, c, k);
        RestorableStays(a, b, k);
        RestorableStays(b, a, k);
      }
    }
  }

  /** The result of one repair: a new AVAILABLE replica where the chunk had no row at all. */
  ghost predicate Repaired(db: Db, d: Db, c: ChunkId, dest: NodeId) {
    && SameShape(db, d) && d.deletions == db.deletions
    && dest !in RowNodes(db.replicas, c)
    && AvailableNodes(d.replicas, c) == AvailableNodes(db.replicas, c) + {dest}
    && RowNodes(d.replicas, c) == RowNodes(db.replicas, c) + {dest}
    && OnlyRowsOf(db.replicas, d.replicas, c)
  }

  lemma CompleteRepaired(db: Db, j: JobId, dest: NodeId)
    requires j.chunk in db.chunks && dest in db.nodes && dest !in RowNodes(db.replicas, j.chunk)
    ensures Repaired(db, CompleteRepair(db, j, dest), j.chunk, dest)
  {
    RepairAdds(db, j, dest);
  }

  /** One repair closes the gap of its chunk by exactly one. */
  lemma RepairCloses(db: Db, d: Db, c: ChunkId, dest: NodeId, cs: set<ChunkId>, rf: nat)
    requires Repaired(db, d, c, dest) && c in cs && |AvailableNodes(db.replicas, c)| < rf
    ensures Distance(d.replicas, cs, rf) == Distance(db.replicas, cs, rf) - 1
  {
    forall k | k in cs && k != c ensures AvailableNodes(d.replicas, k) == AvailableNodes(db.replicas, k) {
      OtherChunks(db.replicas, d.replicas, c, k);
    }
    DistanceStep(db.replicas, d.replicas, cs, c, rf);
  }

  /** One repair leaves the set of restorable chunks as it is. */
  lemma RepairedWanted(db: Db, d: Db, c: ChunkId, dest: NodeId)
    requires Repaired(db, d, c, dest) && Restorable(db, c)
    ensures Wanted(d) == Wanted(db)
  {
    RestorableStays(db, d, c);
    WantedStays(db, d, c);
  }

  /** Only the queue and the clock differ. */
  predicate OnlyTime(db: Db, d: Db) {
    d == db.(jobs := d.jobs, serial := d.serial, now := d.now)
  }

  lemma QueueInv(db: Db, d: Db)
    requires Inv(db) && OnlyTime(db, d) && OneJob(d)
    ensures Inv(d)
  {
    CatalogFrame(db, d);
    ReplicaFrame(db, d);
  }

  /** Scan, then wait until the chunk's job can be claimed. */
  method Schedule(db: Db, c: ChunkId, rf: nat) returns (d: Db, j: JobId)
    requires Inv(db) && NeedsRepair(db, c, rf)
    ensures Inv(d) && OnlyTime(db, d) && j.chunk == c && Claimable(d, j)
  {
    var queued := EnqueueRepairs(db, rf, {c});
    EnqueueFinds(db, c, rf);
    j :| j in queued.jobs && j.chunk == c && Active(queued.jobs[j]);
    var later := queued.(now := queued.now + Patience(queued, j));
    d := ReclaimLeases(later);
    Ripe(queued, j);
    EnqueueJobs(db, rf, {c});
    ReclaimJobs(later);
    QueueInv(db, d);
  }

  lemma ShortNeedsRepair(db: Db, c: ChunkId, rf: nat)
    requires ReplicaInv(db) && c in Wanted(db) && |AvailableNodes(db.replicas, c)| < rf
    ensures NeedsRepair(db, c, rf)
  {
    assert AvailableNodes(db.replicas, c) != {};
  }

  lemma CompleteInv(db: Db, j: JobId, dest: NodeId)
    requires Inv(db)
    ensures Inv(CompleteRepair(db, j, dest))
  {
    StepKeeps(db, OnRepairs(DoCompleteRepair(j, dest)), CompleteRepair(db, j, dest));
  }

  /** Scan, claim, copy, record: one job of an under-replicated chunk from queue to AVAILABLE. */
  method RepairOnce(db: Db, c: ChunkId, rf: nat, pool: set<NodeId>) returns (d: Db, dest: NodeId)
    requires Inv(db) && c in Wanted(db) && |AvailableNodes(db.replicas, c)| < rf
    requires pool <= db.nodes.Keys && pool - RowNodes(db.replicas, c) != {}
    ensures Inv(d) && dest in pool && Repaired(db, d, c, dest)
  {
    ShortNeedsRepair(db, c, rf);
    var ready, j := Schedule(db, c, rf);
    var claimed := ClaimRepair(ready, j, 1);
    ClaimJobs(ready, j, 1);
    QueueInv(ready, claimed);
    dest :| dest in pool && dest !in RowNodes(claimed.replicas, c);
    d := CompleteRepair(claimed, j, dest);
    CompleteInv(claimed, j, dest);
    CompleteRepaired(claimed, j, dest);
  }

  // ------------------------------------------------------------- to the fixed point

  function Short(db: Db, rf: nat): set<ChunkId> {
    set c | c in Wanted(db) && |AvailableNodes(db.replicas, c)| < rf
  }

  function Surfeit(db: Db, cs: set<ChunkId>, rf: nat): set<ChunkId> {
    set c | c in cs && |AvailableNodes(db.replicas, c)| > rf
  }

  /** Enough nodes without a row for the chunk to bring it to the replication factor. */
  ghost predicate Ample(replicas: map<Loc, ReplicaState>, cs: set<ChunkId>, pool: set<NodeId>, rf: nat) {
    forall c | c in cs :: rf <= |AvailableNodes(replicas, c)| + |pool - RowNodes(replicas, c)|
  }

  /** Chunks outside `cs` keep every row, in the same state. */
  ghost predicate RestKept(before: map<Loc, ReplicaState>, after: map<Loc, ReplicaState>, cs: set<ChunkId>) {
    forall l: Loc | l.chunk !in cs :: (l in after <==> l in before) && (l in before ==> after[l] == before[l])
  }

  lemma OneFewer(here: set<NodeId>, rows: set<NodeId>, pool: set<NodeId>, dest: NodeId)
    requires here <= rows && dest in pool && dest !in rows
    ensures |here + {dest}| == |here| + 1 && |pool - (rows + {dest})| == |pool - rows| - 1
  {
    assert pool - (rows + {dest}) == (pool - rows) - {dest};
  }

  lemma RepairedAmple(db: Db, d: Db, c: ChunkId, dest: NodeId, cs: set<ChunkId>, pool: set<NodeId>, rf: nat)
    requires Repaired(db, d, c, dest) && dest in pool && Ample(db.replicas, cs, pool, rf)
    ensures Ample(d.replicas, cs, pool, rf)
  {
    forall k | k in cs ensures rf <= |AvailableNodes(d.replicas, k)| + |pool - RowNodes(d.replicas, k)| {
      if k == c {
        OneFewer(AvailableNodes(db.replicas, c), RowNodes(db.replicas, c), pool, dest);
      } else {
        OtherChunks(db.replicas, d.replicas, c, k);
      }
    }
  }

  /** Between `start` and `db` only chunks of `cs` gained replicas, none beyond `rf`. */
  ghost predicate Raised(start: map<Loc, ReplicaState>, now: map<Loc, ReplicaState>, cs: set<ChunkId>, rf: nat) {
    && RestKept(start, now, cs)
    && forall c | c in cs ::
         && |AvailableNodes(start, c)| <= |AvailableNodes(now, c)|
         && (|AvailableNodes(now, c)| <= rf || |AvailableNodes(now, c)| == |AvailableNodes(start, c)|)
  }

  lemma RaisedMore(start: map<Loc, ReplicaState>, before: Db, db: Db, c: ChunkId, dest: NodeId, cs: set<ChunkId>,
                   rf: nat)
    requires Raised(start, before.replicas, cs, rf) && Repaired(before, db, c, dest) && c in cs
    requires |AvailableNodes(before.replicas, c)| < rf
    ensures Raised(start, db.replicas, cs, rf)
  {
    assert |AvailableNodes(db.replicas, c)| == |AvailableNodes(before.replicas, c)| + 1;
    forall k | k in cs && k != c ensures AvailableNodes(db.replicas, k) == AvailableNodes(before.replicas, k) {
      OtherChunks(before.replicas, db.replicas, c, k);
    }
  }

  /** A round of repairs under way. */
  ghost predicate Repairing(start: Db, db: Db, pool: set<NodeId>, rf: nat) {
    && SameShape(start, db) && Wanted(db) == Wanted(start)
    && Ample(db.replicas, Wanted(start), pool, rf) && Raised(start.replicas, db.replicas, Wanted(start), rf)
  }

  lemma RepairingMore(start: Db, before: Db, db: Db, c: ChunkId, dest: NodeId, pool: set<NodeId>, rf: nat)
    requires Repairing(start, before, pool, rf) && Repaired(before, db, c, dest) && dest in pool
    requires c in Wanted(start) && |AvailableNodes(before.replicas, c)| < rf
    ensures Repairing(start, db, pool, rf)
    ensures Distance(db.replicas, Wanted(start), rf) < Distance(before.replicas, Wanted(start), rf)
  {
    RepairCloses(before, db, c, dest, Wanted(start), rf);
    RepairedWanted(before, db, c, dest);
    RepairedAmple(before, db, c, dest, Wanted(start), pool, rf);
    RaisedMore(start.replicas, before, db, c, dest, Wanted(start), rf);
  }

  /** Repairing one short chunk after another ends, with none of the restorable chunks short. */
  method RepairAll(start: Db, rf: nat, pool: set<NodeId>) returns (db: Db)
    requires Inv(start) && pool <= start.nodes.Keys && Ample(start.replicas, Wanted(start), pool, rf)
    ensures Inv(db) && SameShape(start, db) && Wanted(db) == Wanted(start)
    ensures Raised(start.replicas, db.replicas, Wanted(start), rf)
    ensures forall c | c in Wanted(start) :: rf <= |AvailableNodes(db.replicas, c)|
  {
    db := start;
    while Short(db, rf) != {}
      invariant Inv(db) && Repairing(start, db, pool, rf)
      decreases Distance(db.replicas, Wanted(start), rf)
    {
      ghost var before := db;
      var c :| c in Short(db, rf);
      assert |pool - RowNodes(db.replicas, c)| > 0;
      var dest;
      db, dest := RepairOnce(db, c, rf, pool);
      RepairingMore(start, before, db, c, dest, pool, rf);
    }
    assert forall c | c in Wanted(start) :: c !in Short(db, rf);
  }

  lemma TrimIsStep(db: Db, c: ChunkId, rf: nat)
    ensures Apply(db, OnReplicas(DoTrim(c, rf))) == TrimChunk(db, c, rf)
  {
  }

  /** One trim brings an over-replicated chunk to exactly `rf` and changes no other chunk. */
  lemma TrimCloses(db: Db, c: ChunkId, rf: nat, cs: set<ChunkId>)
    requires ReplicaInv(db) && c in cs && c in db.chunks && |AvailableNodes(db.replicas, c)| > rf
    ensures var d := TrimChunk(db, c, rf);
      && |AvailableNodes(d.replicas, c)| == rf && OnlyRowsOf(db.replicas, d.replicas, c)
      && Distance(d.replicas, cs, rf) < Distance(db.replicas, cs, rf)
      && d == db.(available := d.available, replicas := d.replicas, deletions := d.deletions, serial := d.serial)
  {
    var d := TrimChunk(db, c, rf);
    TrimExact(db, c, rf);
    DemoteRows(db, c, Surplus(db, c, rf));
    forall k | k in cs && k != c ensures AvailableNodes(d.replicas, k) == AvailableNodes(db.replicas, k) {
      OtherChunks(db.replicas, d.replicas, c, k);
    }
    DistanceStep(db.replicas, d.replicas, cs, c, rf);
  }

  /** Between `start` and `now` only chunks of `cs` lost replicas, each down to `rf`. */
  ghost predicate Lowered(start: map<Loc, ReplicaState>, now: map<Loc, ReplicaState>, cs: set<ChunkId>, rf: nat) {
    && RestKept(start, now, cs)
    && forall c | c in cs ::
         || |AvailableNodes(now, c)| == |AvailableNodes(start, c)|
         || |AvailableNodes(now, c)| == rf < |AvailableNodes(start, c)|
  }

  lemma LoweredMore(start: map<Loc, ReplicaState>, before: map<Loc, ReplicaState>, now: map<Loc, ReplicaState>,
                    c: ChunkId, cs: set<ChunkId>, rf: nat)
    requires Lowered(start, before, cs, rf) && c in cs && |AvailableNodes(before, c)| > rf
    requires OnlyRowsOf(before, now, c) && |AvailableNodes(now, c)| == rf
    ensures Lowered(start, now, cs, rf)
  {
    forall k | k in cs && k != c ensures AvailableNodes(now, k) == AvailableNodes(before, k) {
      OtherChunks(before, now, c, k);
    }
  }

  /** A pass of trimming under way. */
  ghost predicate Trimming(start: Db, db: Db, cs: set<ChunkId>, rf: nat) {
    Inv(db) && SameShape(start, db) && Lowered(start.replicas, db.replicas, cs, rf)
  }

  lemma TrimStep(start: Db, db: Db, c: ChunkId, cs: set<ChunkId>, rf: nat)
    requires Trimming(start, db, cs, rf) && cs <= start.chunks.Keys && c in cs && |AvailableNodes(db.replicas, c)| > rf
    ensures var d := TrimChunk(db, c, rf);
      Trimming(start, d, cs, rf) && Distance(d.replicas, cs, rf) < Distance(db.replicas, cs, rf)
  {
    TrimCloses(db, c, rf, cs);
    TrimIsStep(db, c, rf);
    StepKeeps(db, OnReplicas(DoTrim(c, rf)), TrimChunk(db, c, rf));
    LoweredMore(start.replicas, db.replicas, TrimChunk(db, c, rf).replicas, c, cs, rf);
  }

  /** Trimming one over-replicated chunk after another ends, with none of them over. */
  method TrimAll(start: Db, rf: nat, cs: set<ChunkId>) returns (db: Db)
    requires Inv(start) && cs <= start.chunks.Keys
    ensures Inv(db) && SameShape(start, db) && Lowered(start.replicas, db.replicas, cs, rf)
    ensures forall c | c in cs :: |AvailableNodes(db.replicas, c)| <= rf
  {
    db := start;
    while Surfeit(db, cs, rf) != {}
      invariant Trimming(start, db, cs, rf)
      decreases Distance(db.replicas, cs, rf)
    {
      var c :| c in Surfeit(db, cs, rf);
      TrimStep(start, db, c, cs, rf);
      db := TrimChunk(db, c, rf);
    }
    forall c | c in cs ensures |AvailableNodes(db.replicas, c)| <= rf {
      assert c !in Surfeit(db, cs, rf);
    }
  }

  /**
   Convergence: with enough nodes to copy to, scan, repair and trim end with every restorable
   chunk at exactly `rf` AVAILABLE replicas, and every other chunk's rows as they were.
   */
  method Converge(start: Db, rf: nat, pool: set<NodeId>) returns (db: Db)
    requires Inv(start) && pool <= start.nodes.Keys && Ample(start.replicas, Wanted(start), pool, rf)
    ensures Inv(db) && SameShape(start, db)
    ensures forall c | c in Wanted(start) :: |AvailableNodes(db.replicas, c)| == rf
    ensures RestKept(start.replicas, db.replicas, Wanted(start))
  {
    var full := RepairAll(start, rf, pool);
    db := TrimAll(full, rf, Wanted(start));
    KeptTwice(start.replicas, full.replicas, db.replicas, Wanted(start));
  }

  lemma KeptTwice(a: map<Loc, ReplicaState>, b: map<Loc, ReplicaState>, d: map<Loc, ReplicaState>, cs: set<ChunkId>)
    requires RestKept(a, b, cs) && RestKept(b, d, cs)
    ensures RestKept(a, d, cs)
  {
  }

  // ------------------------------------------------------------- terminal failures

  /** A FAILED job does not stop the scanner: the chunk gets a second job. */
  lemma ScannerIgnoresFailed(db: Db, c: ChunkId, rf: nat, i: JobId)
    requires OneJob(db) && NeedsRepair(db, c, rf) && !HasActiveJob(db, c)
    requires i in db.jobs && i.chunk == c && db.jobs[i].state == JobFailed
    ensures var d := EnqueueRepairs(db, rf, {c});
      exists j :: j in d.jobs && j != i && j.chunk == c && Active(d.jobs[j]) && i in d.jobs
        && d.jobs[i].state == JobFailed
  {
    var d := EnqueueRepairs(db, rf, {c});
    var j := JobId(c, db.serial);
    assert j in NewJobs(db, rf, {c}) && d.jobs[j] == JobRow(JobPending, 0, 0, db.now);
    assert i !in NewJobs(db, rf, {c});
  }

  predicate OnePerChunk(js: set<JobId>) {
    forall i, j | i in js && j in js && i.chunk == j.chunk :: i == j
  }

  /**
   Requeueing gives every eligible FAILED job of the batch another chance exactly when no two of
   them belong to one chunk; otherwise the unique index aborts the statement and none gets it.
   */
  lemma RequeueIff(db: Db, batch: set<JobId>)
    requires Requeueable(db, batch) != {}
    ensures (forall j | j in Requeueable(db, batch) :: RequeueFailed(db, batch).jobs[j].state == JobPending) <==>
            OnePerChunk(Requeueable(db, batch))
    ensures !OnePerChunk(Requeueable(db, batch)) ==> RequeueFailed(db, batch) == db
  {
    var k :| k in Requeueable(db, batch);
    assert db.jobs[k].state == JobFailed;
  }
}
