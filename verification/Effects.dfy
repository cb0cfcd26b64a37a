/**
 What one transaction does to the replica rows and deletion jobs of one chunk.
 */
module Effects {
  import opened Tables
  import opened Transactions
  import opened Invariants
  import opened Workers
  import opened Trim
  import Orders

  type Replicas = map<Loc, ReplicaState>
  type Deletions = map<Loc, DeletionRow>

  /** Every deletion job of the chunk targets a DELETING replica. */
  ghost predicate Aimed(deletions: Deletions, replicas: Replicas, c: ChunkId) {
    forall n: NodeId :: Loc(c, n) in deletions ==> Loc(c, n) in replicas && replicas[Loc(c, n)] == Deleting
  }

  /** No deletion job of the chunk targets a replica that is not DELETING; a stray file's job targets none. */
  ghost predicate Harmless(deletions: Deletions, replicas: Replicas, c: ChunkId) {
    forall n: NodeId :: Loc(c, n) in deletions && Loc(c, n) in replicas ==> replicas[Loc(c, n)] == Deleting
  }

  /** Committed, and still wanted by its owner. */
  predicate Standing(db: Db, c: ChunkId) {
    Live(db, c) && db.chunks[c].state == Committed
  }

  // --------------------------------------------------- what one step does to a chunk

  /**
   The chunk keeps its rows, a DELETING row stays DELETING, and a deletion job appears only
   where a row is DELETING.
   */
  ghost predicate Steered(db: Db, d: Db, c: ChunkId) {
    && RowNodes(d.replicas, c) == RowNodes(db.replicas, c)
    && (forall n: NodeId :: Loc(c, n) in db.replicas && db.replicas[Loc(c, n)] == Deleting ==>
          Loc(c, n) in d.replicas && d.replicas[Loc(c, n)] == Deleting)
    && (forall n: NodeId :: Loc(c, n) in d.deletions ==>
          || Loc(c, n) in db.deletions
          || (Loc(c, n) in d.replicas && d.replicas[Loc(c, n)] == Deleting))
  }

  /** Steered, and no AVAILABLE replica of a wanted chunk goes except on dead nodes or beyond the first `m`. */
  ghost predicate Gentle(db: Db, d: Db, c: ChunkId, m: nat, dead: set<NodeId>) {
    && Steered(db, d, c)
    && (Standing(d, c) ==>
          || |AvailableNodes(d.replicas, c)| >= m
          || (Standing(db, c) && AvailableNodes(db.replicas, c) - dead <= AvailableNodes(d.replicas, c)))
  }

  /** Row by row: nothing of the chunk changed. */
  ghost predicate SameRows(db: Db, d: Db, c: ChunkId) {
    && (forall n: NodeId :: Loc(c, n) in d.replicas <==> Loc(c, n) in db.replicas)
    && (forall n: NodeId :: Loc(c, n) in db.replicas ==> d.replicas[Loc(c, n)] == db.replicas[Loc(c, n)])
    && (forall n: NodeId :: Loc(c, n) in d.deletions <==> Loc(c, n) in db.deletions)
  }

  lemma SameGentle(db: Db, d: Db, c: ChunkId, m: nat, dead: set<NodeId>)
    requires SameRows(db, d, c) && (Standing(d, c) ==> Standing(db, c))
    ensures Gentle(db, d, c, m, dead)
  {
  }

  lemma UntouchedGentle(db: Db, d: Db, c: ChunkId, m: nat)
    requires d.replicas == db.replicas && d.deletions == db.deletions && (Standing(d, c) ==> Standing(db, c))
    ensures Gentle(db, d, c, m, {})
  {
  }

  /** Rewriting rows that are not DELETING, never to DELETING, without losing an AVAILABLE one. */
  lemma WriteGentle(db: Db, rows: Replicas, c: ChunkId, m: nat, dead: set<NodeId>)
    requires forall n: NodeId :: Loc(c, n) in rows ==>
      && Loc(c, n) in db.replicas && db.replicas[Loc(c, n)] != Deleting && rows[Loc(c, n)] != Deleting
      && (db.replicas[Loc(c, n)] == Available ==> rows[Loc(c, n)] == Available || n in dead)
    ensures Gentle(db, WriteReplicas(db, rows, {}), c, m, dead)
  {
  }

  lemma GentleFrom(a: Db, b: Db, d: Db, c: ChunkId, m: nat, dead: set<NodeId>)
    requires Gentle(b, d, c, m, dead)
    requires a.replicas == b.replicas && a.deletions == b.deletions && (Standing(b, c) ==> Standing(a, c))
    ensures Gentle(a, d, c, m, dead)
  {
  }

  lemma HealthGentle(db: Db, n: NodeId, h: Health, c: ChunkId, m: nat)
    ensures Gentle(db, SetNodeHealth(db, n, h), c, m, if h == Dead then {n} else {})
  {
    var noted := NoteHealth(db, n, h);
    if h == Dead {
      WriteGentle(noted, Shifted(db, n, {Available, Writing}, Unavailable), c, m, {n});
      GentleFrom(db, noted, SetNodeHealth(db, n, h), c, m, {n});
    } else {
      UntouchedGentle(db, noted, c, m);
    }
  }

  /** A trim only ever targets what it demotes. */
  lemma TrimSteered(db: Db, c: ChunkId, rf: nat)
    ensures Steered(db, TrimChunk(db, c, rf), c)
  {
    DemoteSteered(db, c, Surplus(db, c, rf));
  }

  lemma DemoteSteered(db: Db, c: ChunkId, victims: set<NodeId>)
    requires victims <= AvailableNodes(db.replicas, c)
    ensures Steered(db, Demote(db, c, victims), c)
  {
    DemoteRows(db, c, victims);
    var d := Demote(db, c, victims);
    assert forall n: NodeId :: Loc(c, n) in d.replicas <==> Loc(c, n) in db.replicas;
  }

  lemma TrimElsewhere(db: Db, k: ChunkId, rf: nat, c: ChunkId)
    requires k != c
    ensures SameRows(db, TrimChunk(db, k, rf), c)
  {
    DemoteRows(db, k, Surplus(db, k, rf));
  }

  lemma TrimGentle(db: Db, k: ChunkId, rf: nat, c: ChunkId, m: nat)
    requires k == c ==> rf >= m
    ensures Gentle(db, TrimChunk(db, k, rf), c, m, {})
  {
    if k != c {
      TrimElsewhere(db, k, rf, c);
      SameGentle(db, TrimChunk(db, k, rf), c, m, {});
    } else {
      TrimLeaves(db, c, rf);
      TrimSteered(db, c, rf);
    }
  }

  lemma WriteElsewhere(db: Db, rows: Replicas, gone: set<Loc>, c: ChunkId)
    requires forall l | l in rows || l in gone :: l.chunk != c
    ensures SameRows(db, WriteReplicas(db, rows, gone), c)
  {
  }

  lemma InsertElsewhere(db: Db, l: Loc, c: ChunkId)
    requires l.chunk != c
    ensures SameRows(db, InsertDeletions(db, {l}), c)
  {
  }

  /** Reports, drops, stray files and write targets of other chunks. */
  lemma ElsewhereGentle(db: Db, s: ReplicaStep, c: ChunkId, m: nat)
    requires match s {
      case DoMarkCorrupt(l) => l.chunk != c
      case DoDropReplica(l) => l.chunk != c
      case DoQueueOrphan(l) => l.chunk != c
      case DoRecordTargets(k, _) => k != c
      case _ => false
    }
    ensures Gentle(db, ApplyReplica(db, s), c, m, {})
  {
    match s {
      case DoMarkCorrupt(l) =>
        WriteElsewhere(db, map[l := Corrupt], {}, c);
        InsertElsewhere(db, l, c);
        InsertElsewhere(SetReplica(db, l, Corrupt), l, c);
      case DoDropReplica(l) => WriteElsewhere(db, map[], {l}, c);
      case DoQueueOrphan(l) => InsertElsewhere(db, l, c);
      case DoRecordTargets(k, ns) => WriteElsewhere(db, RowsOn(k, ns, Writing), {}, c);
    }
    SameGentle(db, ApplyReplica(db, s), c, m, {});
  }

  lemma ReplicaGentle(db: Db, s: ReplicaStep, c: ChunkId, m: nat)
    requires match s {
      case DoMarkCorrupt(l) => l.chunk != c
      case DoDropReplica(l) => l.chunk != c
      case DoQueueOrphan(l) => l.chunk != c
      case DoRecordTargets(k, _) => k != c
      case DoTrim(k, rf) => k == c ==> rf >= m
      case _ => true
    }
    ensures Gentle(db, ApplyReplica(db, s), c, m, DeclaredDead(OnReplicas(s)))
  {
    match s
    case DoRecordNode(n, row) => SameGentle(db, RecordNode(db, n, row), c, m, DeclaredDead(OnReplicas(s)));
    case DoSetNodeHealth(n, h) => HealthGentle(db, n, h, c, m);
    case DoMarkStale(n) => WriteGentle(db, Shifted(db, n, {Unavailable}, Stale), c, m, {});
    case DoPromote(l) =>
      if l in db.replicas && db.replicas[l] == Stale {
        WriteGentle(db, map[l := Available], c, m, {});
      }
    case DoMarkCorrupt(_) => ElsewhereGentle(db, s, c, m);
    case DoDropReplica(_) => ElsewhereGentle(db, s, c, m);
    case DoQueueOrphan(_) => ElsewhereGentle(db, s, c, m);
    case DoRecordTargets(_, _) => ElsewhereGentle(db, s, c, m);
    case DoTrim(k, rf) => TrimGentle(db, k, rf, c, m);
    case DoVerifyCounters => UntouchedGentle(db, VerifyCounters(db), c, m);
  }

  // -------------------------------------------------------------- catalogue steps

  /** Retirement aims at what it marks, adds no row, and leaves other chunks alone. */
  lemma RetireGentle(db: Db, cs: set<ChunkId>, c: ChunkId)
    ensures var d := RetireChunks(db, cs);
      && Steered(db, d, c)
      && (c !in cs ==> AvailableNodes(d.replicas, c) == AvailableNodes(db.replicas, c))
  {
  }

  lemma CommitElsewhere(db: Db, k: ChunkId, sum: string, size: nat, ok: set<NodeId>, bad: set<NodeId>, min: nat,
                        c: ChunkId, m: nat)
    requires k != c
    ensures Gentle(db, CommitChunk(db, k, sum, size, ok, bad, min), c, m, {})
  {
    var noted := WriteReplicas(db, FailedRows(db, k, bad), {});
    WriteElsewhere(db, FailedRows(db, k, bad), {}, c);
    WriteElsewhere(noted, RowsOn(k, ok, Available), {}, c);
    CommitStanding(db, k, sum, size, ok, bad, min, c);
    SameGentle(db, CommitChunk(db, k, sum, size, ok, bad, min), c, m, {});
  }

  lemma CommitStanding(db: Db, k: ChunkId, sum: string, size: nat, ok: set<NodeId>, bad: set<NodeId>, min: nat,
                       c: ChunkId)
    requires k != c
    ensures Standing(CommitChunk(db, k, sum, size, ok, bad, min), c) ==> Standing(db, c)
  {
  }

  lemma ReuseStanding(db: Db, taken: set<ChunkId>, size: nat, c: ChunkId)
    ensures Standing(ReuseChunks(db, taken, size), c) ==> Standing(db, c)
  {
  }

  lemma MintStanding(db: Db, id: ChunkId, owner: Owner, index: nat, size: nat, c: ChunkId)
    ensures Standing(MintChunk(db, id, owner, index, size), c) ==> Standing(db, c)
  {
  }

  lemma ReserveGentle(db: Db, id: ChunkId, owner: Owner, index: nat, size: nat, c: ChunkId, m: nat)
    ensures Gentle(db, ReserveChunk(db, id, owner, index, size), c, m, {})
  {
    ReuseStanding(db, AtPosition(db.chunks, owner, index), size, c);
    MintStanding(db, id, owner, index, size, c);
    UntouchedGentle(db, ReserveChunk(db, id, owner, index, size), c, m);
  }

  lemma ShowGentle(db: Db, o: ObjectId, size: nat, count: nat, c: ChunkId, m: nat)
    requires o in db.objects && db.objects[o].state == Uploading
    ensures Gentle(db, Show(db, o, size, count), c, m, {})
  {
    var prior := CompleteVersions(db.objects, db.objects[o].key) - {o};
    RetireGentle(SetObjectStates(db, prior, Retiring), OwnedByObjects(db.chunks, prior), c);
  }

  lemma AbortGentle(db: Db, os: set<ObjectId>, c: ChunkId, m: nat)
    ensures Gentle(db, AbortUploads(db, os), c, m, {})
  {
    var hit := InFlight(db, os);
    var cs := OwnedByObjects(db.chunks, hit);
    RetireGentle(OrphanChunks(SetObjectStates(db, hit, Failed), cs), cs, c);
  }

  lemma DeleteGentle(db: Db, k: Key, c: ChunkId, m: nat)
    ensures Gentle(db, DeleteObject(db, k), c, m, {})
  {
    var prior := CompleteVersions(db.objects, k);
    RetireGentle(SetObjectStates(db, prior, Retiring), OwnedByObjects(db.chunks, prior), c);
  }

  lemma BeginGentle(db: Db, o: ObjectId, k: Key, c: ChunkId, m: nat)
    requires CatalogRefs(db)
    ensures Gentle(db, BeginUpload(db, o, k), c, m, {})
  {
    UntouchedGentle(db, BeginUpload(db, o, k), c, m);
  }

  lemma UploadGentle(db: Db, s: UploadStep, c: ChunkId, m: nat)
    requires CatalogRefs(db) && (s.DoCommit? ==> s.c != c)
    ensures Gentle(db, ApplyUpload(db, s), c, m, {})
  {
    match s
    case DoReserve(id, owner, index, size) => ReserveGentle(db, id, owner, index, size, c, m);
    case DoCommit(k, sum, size, ok, bad, min) => CommitElsewhere(db, k, sum, size, ok, bad, min, c, m);
    case DoBeginUpload(o, k) => BeginGentle(db, o, k, c, m);
    case DoCompleteUpload(o, size, count) =>
      if CompleteAccepted(db, o, count) {
        ShowGentle(db, o, size, count, c, m);
      }
    case DoAbortUploads(os) => AbortGentle(db, os, c, m);
    case DoDeleteObject(k) => DeleteGentle(db, k, c, m);
  }

  lemma GentleTrans(a: Db, b: Db, d: Db, c: ChunkId, m: nat)
    requires Gentle(a, b, c, m, {}) && Gentle(b, d, c, m, {})
    ensures Gentle(a, d, c, m, {})
  {
    if Standing(d, c) && |AvailableNodes(d.replicas, c)| < m {
      Orders.SubsetSize(AvailableNodes(b.replicas, c), AvailableNodes(d.replicas, c));
    }
  }

  lemma FailPartsGentle(db: Db, ps: set<PartId>, c: ChunkId, m: nat)
    ensures Gentle(db, FailParts(db, ps), c, m, {})
  {
    var cs := OwnedByParts(db.chunks, ps);
    RetireGentle(OrphanChunks(SetPartsFailed(db, ps), cs), cs, c);
  }

  lemma BeginPartGentle(db: Db, p: PartId, u: UploadId, number: nat, c: ChunkId, m: nat)
    requires CatalogRefs(db)
    ensures Gentle(db, BeginPart(db, p, u, number), c, m, {})
  {
    var d := BeginPart(db, p, u, number);
    if d != db {
      var cleared := FailParts(db, PriorAttempts(db.parts, u, number));
      FailPartsGentle(db, PriorAttempts(db.parts, u, number), c, m);
      UntouchedGentle(cleared, d, c, m);
      GentleTrans(db, cleared, d, c, m);
    }
  }

  lemma AssembleStanding(db: Db, u: UploadId, o: ObjectId, c: ChunkId)
    requires CatalogRefs(db) && u in db.uploads && db.uploads[u].state == InProgress && o !in db.objects
    ensures Standing(Assemble(db, u, o), c) ==> Standing(db, c)
  {
  }

  lemma DiscardGentle(db: Db, u: UploadId, c: ChunkId, m: nat)
    ensures Gentle(db, DiscardLeftovers(db, u), c, m, {})
  {
    RetireGentle(db, OwnedByParts(db.chunks, PartsOf(db.parts, u)), c);
  }

  lemma AssemblyGentle(db: Db, u: UploadId, o: ObjectId, manifest: seq<PartRef>, c: ChunkId, m: nat)
    requires CatalogRefs(db)
    ensures Gentle(db, CompleteMultipart(db, u, o, manifest), c, m, {})
  {
    if AssemblyCommits(db, u, o, manifest) {
      var ps := CompleteParts(db.parts, u);
      var size, count := DeclaredSize(db.parts, ps), DeclaredChunks(db.parts, ps);
      var whole := Assemble(db, u, o);
      var shown := Show(whole, o, size, count);
      AssembleStanding(db, u, o, c);
      UntouchedGentle(db, whole, c, m);
      ShowGentle(whole, o, size, count, c, m);
      DiscardGentle(shown, u, c, m);
      GentleTrans(db, whole, shown, c, m);
      GentleTrans(db, shown, DiscardLeftovers(shown, u), c, m);
    } else {
      UntouchedGentle(db, db, c, m);
    }
  }

  lemma AbortMultipartGentle(db: Db, u: UploadId, c: ChunkId, m: nat)
    ensures Gentle(db, AbortMultipart(db, u), c, m, {})
  {
    if u in db.uploads && db.uploads[u].state in {InProgress, Completing} {
      var closed := db.(uploads := db.uploads[u := db.uploads[u].(state := Aborted)]);
      UntouchedGentle(db, closed, c, m);
      FailPartsGentle(closed, PartsOf(db.parts, u), c, m);
      GentleTrans(db, closed, FailParts(closed, PartsOf(db.parts, u)), c, m);
    } else {
      UntouchedGentle(db, db, c, m);
    }
  }

  lemma CompletePartGentle(db: Db, p: PartId, size: nat, count: nat, etag: string, c: ChunkId, m: nat)
    ensures Gentle(db, CompletePart(db, p, size, count, etag), c, m, {})
  {
    UntouchedGentle(db, CompletePart(db, p, size, count, etag), c, m);
  }

  lemma PurgeUploadsGentle(db: Db, us: set<UploadId>, c: ChunkId, m: nat)
    ensures Gentle(db, PurgeUploads(db, us), c, m, {})
  {
    UntouchedGentle(db, PurgeUploads(db, us), c, m);
  }

  lemma QueueGentle(db: Db, s: RepairStep, c: ChunkId, m: nat)
    requires Public(OnRepairs(s))
    ensures Gentle(db, ApplyRepair(db, s), c, m, {})
  {
    var d := ApplyRepair(db, s);
    assert d.replicas == db.replicas;
    UntouchedGentle(db, d, c, m);
  }

  lemma MultipartGentle(db: Db, s: MultipartStep, c: ChunkId, m: nat)
    requires CatalogRefs(db)
    ensures Gentle(db, ApplyMultipart(db, s), c, m, {})
  {
    match s
    case DoCreateMultipart(u, k) => UntouchedGentle(db, CreateMultipart(db, u, k), c, m);
    case DoBeginPart(p, u, number) => BeginPartGentle(db, p, u, number, c, m);
    case DoCompletePart(p, size, count, etag) => CompletePartGentle(db, p, size, count, etag, c, m);
    case DoCompleteMultipart(u, o, manifest) => AssemblyGentle(db, u, o, manifest, c, m);
    case DoAbortMultipart(u) => AbortMultipartGentle(db, u, c, m);
    case DoPurgeUploads(us) => PurgeUploadsGentle(db, us, c, m);
  }

  lemma PurgeGentle(db: Db, cs: set<ChunkId>, os: set<ObjectId>, c: ChunkId, m: nat)
    ensures Gentle(db, PurgeReclaimed(db, cs, os), c, m, {})
  {
    UntouchedGentle(db, PurgeReclaimed(db, cs, os), c, m);
  }

  // ------------------------------------------------------- single replica rows

  lemma SetRow(db: Db, l: Loc, s: ReplicaState)
    ensures SetReplica(db, l, s).replicas == db.replicas[l := s]
  {
    assert (db.replicas - {}) + map[l := s] == db.replicas[l := s];
  }

  /** A finished deletion takes its own row away and touches no other. */
  lemma FinishRows(db: Db, l: Loc, serial: nat)
    ensures FinishDeletion(db, l, serial).replicas == db.replicas - {l}
  {
    assert (db.replicas - {l}) + map[] == db.replicas - {l};
  }

  /** Giving up on a deletion takes its row along exactly when that is DELETING. */
  lemma ExpireRows(db: Db, l: Loc, serial: nat)
    ensures var d := ExpireDeletion(db, l, serial);
      d.replicas == if l in db.replicas && db.replicas[l] == Deleting then db.replicas - {l} else db.replicas
  {
    var gone := DeletingRows(db, l.chunk) * {l};
    assert gone == if l in db.replicas && db.replicas[l] == Deleting then {l} else {};
    assert (db.replicas - gone) + map[] == db.replicas - gone;
    assert gone == {} ==> db.replicas - gone == db.replicas;
  }

  /**
   Not a report, a drop, a stray file, a write target or a commit of this chunk, nor a trim of it
   to fewer than `m` copies.
   */
  predicate Elsewhere(s: Step, c: ChunkId, m: nat) {
    match s
    case OnReplicas(DoMarkCorrupt(l)) => l.chunk != c
    case OnReplicas(DoDropReplica(l)) => l.chunk != c
    case OnReplicas(DoQueueOrphan(l)) => l.chunk != c
    case OnReplicas(DoRecordTargets(k, _)) => k != c
    case OnReplicas(DoTrim(k, rf)) => k == c ==> rf >= m
    case OnUploads(DoCommit(k, _, _, _, _, _)) => k != c
    case _ => true
  }

  /** Every public step that is not a write to the chunk itself treats it gently. */
  lemma PublicGentle(db: Db, s: Step, c: ChunkId, m: nat)
    requires CatalogRefs(db) && Public(s) && Elsewhere(s, c, m)
    ensures Gentle(db, Apply(db, s), c, m, DeclaredDead(s))
  {
    match s
    case OnReplicas(r) => ReplicaGentle(db, r, c, m);
    case OnUploads(u) => UploadGentle(db, u, c, m);
    case OnMultipart(p) => MultipartGentle(db, p, c, m);
    case OnRepairs(j) => QueueGentle(db, j, c, m);
    case OnGc(DoPurge(cs, os)) => PurgeGentle(db, cs, os, c, m);
    case Tick(dt) => UntouchedGentle(db, Apply(db, s), c, m);
  }
}
