/** What every transaction of the metadata store keeps, over any interleaving. */
module Invariants {
  import opened Tables
  import opened Transactions
  import Orders

  /** Foreign keys of the catalogue: objects, sessions, parts and chunks. */
  ghost predicate CatalogRefs(db: Db) {
    && (forall c | c in db.chunks :: OwnerExists(db, db.chunks[c].owner))
    && (forall p | p in db.parts :: db.parts[p].upload in db.uploads)
    && 0 !in db.chunks
  }

  /** Foreign keys of the replica table, and a counter for every chunk. */
  ghost predicate ReplicaRefs(db: Db) {
    && (forall l | l in db.replicas :: l.chunk in db.chunks && l.node in db.nodes)
    && db.available.Keys == db.chunks.Keys
  }

  predicate OwnerExists(db: Db, owner: Owner) {
    match owner
    case ObjectOwner(o) => o in db.objects
    case PartOwner(p) => p in db.parts
  }

  /** The denormalised durability counter equals the number of AVAILABLE rows. */
  ghost predicate CountersExact(db: Db) {
    forall c | c in db.available :: db.available[c] == |AvailableNodes(db.replicas, c)|
  }

  /** An owner has at most one chunk per position. */
  ghost predicate OnePerPosition(db: Db) {
    forall a, b | a in db.chunks && b in db.chunks
      && db.chunks[a].owner == db.chunks[b].owner && db.chunks[a].index == db.chunks[b].index :: a == b
  }

  /** At most one version of a key is visible. */
  ghost predicate OneVersion(db: Db) {
    forall a, b | a in db.objects && b in db.objects && db.objects[a].state == db.objects[b].state == Complete
      && db.objects[a].key == db.objects[b].key :: a == b
  }

  /** Owners that have declared their chunk set: visible versions, and finished parts of open sessions. */
  predicate Settled(db: Db, owner: Owner) {
    match owner
    case ObjectOwner(o) => o in db.objects && db.objects[o].state == Complete
    case PartOwner(p) =>
      && p in db.parts && db.parts[p].state == PartComplete
      && db.parts[p].upload in db.uploads && db.uploads[db.parts[p].upload].state == InProgress
  }

  function Declared(db: Db, owner: Owner): nat
    requires Settled(db, owner)
  {
    match owner
    case ObjectOwner(o) => db.objects[o].chunkCount
    case PartOwner(p) => db.parts[p].chunkCount
  }

  /** A settled owner has exactly the chunks it declares, all COMMITTED. */
  ghost predicate NoHoles(db: Db) {
    forall owner | Settled(db, owner) :: AllCommitted(db.chunks, owner, Declared(db, owner))
  }

  /** At most one live attempt per part number of an upload. */
  ghost predicate OneAttempt(db: Db) {
    forall p, q | p in db.parts && q in db.parts
      && db.parts[p].state != PartFailed && db.parts[q].state != PartFailed
      && db.parts[p].upload == db.parts[q].upload && db.parts[p].number == db.parts[q].number :: p == q
  }

  /** No replica waits for deletion without a job that will delete it. */
  ghost predicate DeletingQueued(db: Db) {
    forall l | l in db.replicas && db.replicas[l] == Deleting :: l in db.deletions
  }

  ghost predicate Checksummed(db: Db) {
    forall c | c in db.chunks && db.chunks[c].state == Committed :: IsHexDigest(db.chunks[c].checksum)
  }

  /** No chunk has two PENDING or RUNNING repair jobs, and job ids are never reused. */
  ghost predicate OneJob(db: Db) {
    && (forall i, j | i in db.jobs && j in db.jobs && Active(db.jobs[i]) && Active(db.jobs[j])
          && i.chunk == j.chunk :: i == j)
    && (forall j | j in db.jobs :: j.chunk in db.chunks && j.serial < db.serial)
  }

  ghost predicate CatalogInv(db: Db) {
    && CatalogRefs(db) && OnePerPosition(db) && OneVersion(db) && NoHoles(db)
    && OneAttempt(db) && Checksummed(db)
  }

  ghost predicate ReplicaInv(db: Db) {
    ReplicaRefs(db) && CountersExact(db) && DeletingQueued(db)
  }

  ghost predicate Inv(db: Db) {
    CatalogInv(db) && ReplicaInv(db) && OneJob(db)
  }

  // ----------------------------------------------------------- what steps leave

  predicate SameCatalog(db: Db, d: Db) {
    d == db.(nodes := d.nodes, available := d.available, replicas := d.replicas, deletions := d.deletions,
             jobs := d.jobs, serial := d.serial, now := d.now)
  }

  lemma CatalogFrame(db: Db, d: Db)
    requires CatalogInv(db) && SameCatalog(db, d)
    ensures CatalogInv(d)
  {
    forall owner | Settled(d, owner) ensures AllCommitted(d.chunks, owner, Declared(d, owner)) {
      assert Settled(db, owner) && Owned(db.chunks, owner) == Owned(d.chunks, owner);
    }
  }

  // -------------------------------------------------- replica rows and counters

  /** The trigger keeps an exact counter exact. */
  lemma WriteCounts(db: Db, rows: map<Loc, ReplicaState>, gone: set<Loc>)
    requires CountersExact(db)
    ensures CountersExact(WriteReplicas(db, rows, gone))
  {
    var d := WriteReplicas(db, rows, gone);
    forall c | c in d.available ensures d.available[c] == |AvailableNodes(d.replicas, c)| {
      if c !in Touched(db.replicas, rows, gone) {
        forall n ensures Loc(c, n) !in rows && (Loc(c, n) in gone ==> Loc(c, n) !in db.replicas) {
          assert Loc(c, n).chunk == c;
        }
        assert AvailableNodes(d.replicas, c) == AvailableNodes(db.replicas, c);
      }
    }
  }

  /** Rewriting replica rows of existing chunks on existing nodes. */
  lemma WriteKeeps(db: Db, rows: map<Loc, ReplicaState>, gone: set<Loc>)
    requires ReplicaInv(db)
    requires forall l | l in rows :: l.chunk in db.chunks && l.node in db.nodes
    requires forall l | l in rows && rows[l] == Deleting :: l in db.deletions
    ensures ReplicaInv(WriteReplicas(db, rows, gone))
  {
    WriteCounts(db, rows, gone);
  }

  lemma InsertKeeps(db: Db, ls: set<Loc>)
    requires ReplicaInv(db)
    ensures ReplicaInv(InsertDeletions(db, ls))
  {
  }

  lemma RetireKeeps(db: Db, cs: set<ChunkId>)
    requires ReplicaInv(db)
    ensures ReplicaInv(RetireChunks(db, cs))
  {
    InsertKeeps(db, Outgoing(db, cs));
    WriteKeeps(InsertDeletions(db, Outgoing(db, cs)), AllDeleting(db, cs), {});
  }

  lemma NotedKeeps(db: Db, n: NodeId, h: Health)
    requires ReplicaInv(db)
    ensures ReplicaInv(NoteHealth(db, n, h)) && db.nodes.Keys == NoteHealth(db, n, h).nodes.Keys
  {
  }

  lemma HealthKeeps(db: Db, n: NodeId, h: Health)
    requires ReplicaInv(db)
    ensures ReplicaInv(SetNodeHealth(db, n, h))
  {
    var noted := NoteHealth(db, n, h);
    NotedKeeps(db, n, h);
    if h == Dead {
      WriteKeeps(noted, Shifted(db, n, {Available, Writing}, Unavailable), {});
    }
  }

  lemma CorruptKeeps(db: Db, l: Loc)
    requires ReplicaInv(db)
    ensures ReplicaInv(MarkCorrupt(db, l))
  {
    if l.chunk in db.chunks {
      if l in db.replicas && db.replicas[l] != Deleting {
        WriteKeeps(db, map[l := Corrupt], {});
        InsertKeeps(SetReplica(db, l, Corrupt), {l});
      }
    }
  }

  lemma DemoteRefs(db: Db, c: ChunkId, victims: set<NodeId>)
    requires ReplicaRefs(db) && victims <= AvailableNodes(db.replicas, c)
    ensures ReplicaRefs(Demote(db, c, victims))
  {
  }

  lemma DemoteQueued(db: Db, c: ChunkId, victims: set<NodeId>)
    requires DeletingQueued(db)
    ensures DeletingQueued(Demote(db, c, victims))
  {
    var demoted := WriteReplicas(db, RowsOn(c, victims, Deleting), {});
    assert forall l | l in demoted.replicas && demoted.replicas[l] == Deleting ::
      l in db.deletions || l in DeletingRows(demoted, c);
  }

  lemma DemoteCounts(db: Db, c: ChunkId, victims: set<NodeId>)
    requires CountersExact(db)
    ensures CountersExact(Demote(db, c, victims))
  {
    WriteCounts(db, RowsOn(c, victims, Deleting), {});
  }

  lemma DemoteKeeps(db: Db, c: ChunkId, victims: set<NodeId>)
    requires ReplicaInv(db) && victims <= AvailableNodes(db.replicas, c)
    ensures ReplicaInv(Demote(db, c, victims))
  {
    DemoteRefs(db, c, victims);
    DemoteQueued(db, c, victims);
    DemoteCounts(db, c, victims);
  }

  lemma TrimKeeps(db: Db, c: ChunkId, rf: nat)
    requires ReplicaInv(db)
    ensures ReplicaInv(TrimChunk(db, c, rf))
  {
    DemoteKeeps(db, c, Surplus(db, c, rf));
  }

  lemma ReplicaStepKeeps(db: Db, s: ReplicaStep)
    requires ReplicaInv(db)
    ensures ReplicaInv(ApplyReplica(db, s))
  {
    match s
    case DoRecordNode(n, row) =>
    case DoSetNodeHealth(n, h) => HealthKeeps(db, n, h);
    case DoMarkStale(n) => WriteKeeps(db, Shifted(db, n, {Unavailable}, Stale), {});
    case DoPromote(l) =>
      if l in db.replicas {
        WriteKeeps(db, map[l := Available], {});
      }
    case DoMarkCorrupt(l) => CorruptKeeps(db, l);
    case DoDropReplica(l) => WriteKeeps(db, map[], {l});
    case DoQueueOrphan(l) => InsertKeeps(db, {l});
    case DoRecordTargets(c, ns) =>
      if c in db.chunks && ns <= db.nodes.Keys {
        WriteKeeps(db, RowsOn(c, ns, Writing), {});
      }
    case DoTrim(c, rf) => TrimKeeps(db, c, rf);
    case DoVerifyCounters =>
  }

  // -------------------------------------------------------------- the catalogue

  lemma ObjectStatesCatalog(db: Db, os: set<ObjectId>, st: ObjectState)
    requires CatalogInv(db) && st != Complete
    ensures CatalogInv(SetObjectStates(db, os, st))
  {
    var d := SetObjectStates(db, os, st);
    forall owner | Settled(d, owner) ensures AllCommitted(d.chunks, owner, Declared(d, owner)) {
      assert Settled(db, owner) && Owned(db.chunks, owner) == Owned(d.chunks, owner);
    }
  }

  /** Chunks of `cs` lose their state, and nothing else about any chunk changes. */
  ghost predicate Unsettles(chunks: map<ChunkId, ChunkRow>, after: map<ChunkId, ChunkRow>, cs: set<ChunkId>) {
    && after.Keys == chunks.Keys
    && forall c | c in chunks ::
         && after[c].owner == chunks[c].owner && after[c].index == chunks[c].index
         && (if c in cs then after[c].state != Committed else after[c] == chunks[c])
  }

  lemma UnsettledHoles(db: Db, d: Db, cs: set<ChunkId>)
    requires NoHoles(db) && d == db.(chunks := d.chunks) && Unsettles(db.chunks, d.chunks, cs)
    requires forall c | c in cs && c in db.chunks :: !Settled(db, db.chunks[c].owner)
    ensures NoHoles(d)
  {
    forall owner | Settled(d, owner) ensures AllCommitted(d.chunks, owner, Declared(d, owner)) {
      assert Settled(db, owner) && Owned(db.chunks, owner) == Owned(d.chunks, owner);
    }
  }

  lemma UnsettledCatalog(db: Db, d: Db, cs: set<ChunkId>)
    requires CatalogInv(db) && d == db.(chunks := d.chunks) && Unsettles(db.chunks, d.chunks, cs)
    requires forall c | c in cs && c in db.chunks :: !Settled(db, db.chunks[c].owner)
    ensures CatalogInv(d)
  {
    UnsettledHoles(db, d, cs);
  }

  lemma OrphanCatalog(db: Db, cs: set<ChunkId>)
    requires CatalogInv(db)
    requires forall c | c in cs && c in db.chunks :: !Settled(db, db.chunks[c].owner)
    ensures CatalogInv(OrphanChunks(db, cs))
  {
    UnsettledCatalog(db, OrphanChunks(db, cs), cs);
  }

  lemma PartsFailedCatalog(db: Db, ps: set<PartId>)
    requires CatalogInv(db)
    ensures CatalogInv(SetPartsFailed(db, ps))
  {
    var d := SetPartsFailed(db, ps);
    forall owner | Settled(d, owner) ensures AllCommitted(d.chunks, owner, Declared(d, owner)) {
      assert Settled(db, owner) && Owned(db.chunks, owner) == Owned(d.chunks, owner);
    }
  }

  lemma ReuseCatalog(db: Db, cs: set<ChunkId>, size: nat)
    requires CatalogInv(db)
    requires forall c | c in cs && c in db.chunks :: !Settled(db, db.chunks[c].owner)
    ensures CatalogInv(ReuseChunks(db, cs, size))
  {
    UnsettledCatalog(db, ReuseChunks(db, cs, size), cs);
  }

  lemma MintCatalog(db: Db, id: ChunkId, owner: Owner, index: nat, size: nat)
    requires CatalogInv(db) && id !in db.chunks && id != 0 && Writable(db, owner)
    requires AtPosition(db.chunks, owner, index) == {}
    ensures CatalogInv(MintChunk(db, id, owner, index, size))
  {
    var d := MintChunk(db, id, owner, index, size);
    forall w | Settled(d, w) ensures AllCommitted(d.chunks, w, Declared(d, w)) {
      assert Settled(db, w) && Owned(db.chunks, w) == Owned(d.chunks, w);
    }
    forall a, b | a in d.chunks && b in d.chunks && d.chunks[a].owner == d.chunks[b].owner
      && d.chunks[a].index == d.chunks[b].index
      ensures a == b
    {
      assert forall x | x in db.chunks :: x !in AtPosition(db.chunks, owner, index);
    }
  }

  lemma CommitCatalog(db: Db, c: ChunkId, sum: string, size: nat)
    requires CatalogInv(db) && c in db.chunks && IsHexDigest(sum)
    ensures CatalogInv(db.(chunks := db.chunks[c := db.chunks[c].(checksum := sum, size := size, state := Committed)]))
  {
    var d := db.(chunks := db.chunks[c := db.chunks[c].(checksum := sum, size := size, state := Committed)]);
    forall owner | Settled(d, owner) ensures AllCommitted(d.chunks, owner, Declared(d, owner)) {
      assert Settled(db, owner) && Owned(db.chunks, owner) == Owned(d.chunks, owner);
    }
  }

  lemma PromoteCatalog(db: Db, o: ObjectId, row: ObjectRow)
    requires CatalogInv(db) && row.state == Complete
    requires AllCommitted(db.chunks, ObjectOwner(o), row.chunkCount)
    requires CompleteVersions(db.objects, row.key) <= {o}
    ensures CatalogInv(db.(objects := db.objects[o := row]))
  {
    var d := db.(objects := db.objects[o := row]);
    forall owner | Settled(d, owner) ensures AllCommitted(d.chunks, owner, Declared(d, owner)) {
      assert Owned(db.chunks, owner) == Owned(d.chunks, owner);
      assert owner == ObjectOwner(o) || Settled(db, owner);
    }
    forall a, b | a in d.objects && b in d.objects && d.objects[a].state == d.objects[b].state == Complete
      && d.objects[a].key == d.objects[b].key
      ensures a == b
    {
      assert forall x | x in db.objects && db.objects[x].state == Complete && db.objects[x].key == row.key ::
        x in CompleteVersions(db.objects, row.key);
    }
  }

  lemma ShowCatalog(db: Db, o: ObjectId, size: nat, count: nat)
    requires CatalogInv(db) && o in db.objects
    requires AllCommitted(db.chunks, ObjectOwner(o), count)
    ensures CatalogInv(Show(db, o, size, count))
  {
    var k := db.objects[o].key;
    var prior := CompleteVersions(db.objects, k) - {o};
    var noted := SetObjectStates(db, prior, Retiring);
    ObjectStatesCatalog(db, prior, Retiring);
    var swapped := RetireChunks(noted, OwnedByObjects(db.chunks, prior));
    CatalogFrame(noted, swapped);
    assert Owned(db.chunks, ObjectOwner(o)) == Owned(swapped.chunks, ObjectOwner(o));
    assert CompleteVersions(swapped.objects, k) <= {o};
    PromoteCatalog(swapped, o, ObjectRow(k, Complete, size, count));
  }

  lemma FailPartsCatalog(db: Db, ps: set<PartId>)
    requires CatalogInv(db)
    ensures CatalogInv(FailParts(db, ps))
  {
    var failed := SetPartsFailed(db, ps);
    var cs := OwnedByParts(db.chunks, ps);
    PartsFailedCatalog(db, ps);
    OrphanCatalog(failed, cs);
    CatalogFrame(OrphanChunks(failed, cs), RetireChunks(OrphanChunks(failed, cs), cs));
  }

  lemma AddPartCatalog(db: Db, p: PartId, row: PartRow)
    requires CatalogInv(db) && row.upload in db.uploads && row.state == PartUploading && p !in db.parts
    requires PriorAttempts(db.parts, row.upload, row.number) == {}
    ensures CatalogInv(db.(parts := db.parts[p := row]))
  {
    var d := db.(parts := db.parts[p := row]);
    forall owner | Settled(d, owner) ensures AllCommitted(d.chunks, owner, Declared(d, owner)) {
      assert Settled(db, owner) && Owned(db.chunks, owner) == Owned(d.chunks, owner);
    }
    forall q | q in db.parts && db.parts[q].state != PartFailed && db.parts[q].upload == row.upload
      ensures db.parts[q].number != row.number
    {
      assert q !in PriorAttempts(db.parts, row.upload, row.number);
    }
  }

  lemma BeginPartCatalog(db: Db, p: PartId, u: UploadId, number: nat)
    requires CatalogInv(db)
    ensures CatalogInv(BeginPart(db, p, u, number))
  {
    if BeginPart(db, p, u, number) != db {
      var ps := PriorAttempts(db.parts, u, number);
      var cleared := FailParts(db, ps);
      FailPartsCatalog(db, ps);
      forall q | q in PartsOf(cleared.parts, u) ensures q !in PriorAttempts(cleared.parts, u, number) {
        assert q in ps || cleared.parts[q] == db.parts[q];
      }
      assert PriorAttempts(cleared.parts, u, number) == {};
      AddPartCatalog(cleared, p, PartRow(u, number, PartUploading, 0, 0, ""));
    }
  }

  lemma CompletePartCatalog(db: Db, p: PartId, size: nat, count: nat, etag: string)
    requires CatalogInv(db)
    ensures CatalogInv(CompletePart(db, p, size, count, etag))
  {
    if CompletePartAccepted(db, p, count) {
      var d := CompletePart(db, p, size, count, etag);
      forall owner | Settled(d, owner) ensures AllCommitted(d.chunks, owner, Declared(d, owner)) {
        assert Owned(db.chunks, owner) == Owned(d.chunks, owner);
        assert owner == PartOwner(p) || Settled(db, owner);
      }
    }
  }

  /** Opening an object, or moving a session to a state other than IN_PROGRESS. */
  lemma SessionCatalog(db: Db, uploads: map<UploadId, UploadRow>, objects: map<ObjectId, ObjectRow>)
    requires CatalogInv(db)
    requires db.uploads.Keys <= uploads.Keys && db.objects.Keys <= objects.Keys
    requires forall u | u in db.uploads && uploads[u].state == InProgress :: uploads[u] == db.uploads[u]
    requires forall o | o in objects ::
      (o in db.objects && objects[o] == db.objects[o]) || objects[o].state == Uploading
    ensures CatalogInv(db.(uploads := uploads, objects := objects))
  {
    var d := db.(uploads := uploads, objects := objects);
    forall owner | Settled(d, owner) ensures AllCommitted(d.chunks, owner, Declared(d, owner)) {
      assert Settled(db, owner) && Owned(db.chunks, owner) == Owned(d.chunks, owner);
    }
  }

  /** `ORDER BY part_number, chunk_index` has no ties among the chunks of finished parts. */
  lemma MovedOrdered(db: Db, u: UploadId)
    requires OnePerPosition(db) && OneAttempt(db)
    ensures Orders.StrictTotal(ByPartThenIndex(db.parts, db.chunks), Moved(db.parts, db.chunks, u))
  {
    var less, s := ByPartThenIndex(db.parts, db.chunks), Moved(db.parts, db.chunks, u);
    forall a, b | a in s && b in s && a != b ensures less(a, b) || less(b, a) {
      var p, q := db.chunks[a].owner.pid, db.chunks[b].owner.pid;
      assert p in CompleteParts(db.parts, u) && q in CompleteParts(db.parts, u);
      assert p != q ==> db.parts[p].number != db.parts[q].number;
    }
  }

  lemma ReparentCatalog(db: Db, u: UploadId, o: ObjectId)
    requires CatalogInv(db) && u in db.uploads && db.uploads[u].state != InProgress
    requires o in db.objects && db.objects[o].state == Uploading && Owned(db.chunks, ObjectOwner(o)) == {}
    ensures CatalogInv(Reparent(db, u, o))
    ensures Owned(Reparent(db, u, o).chunks, ObjectOwner(o)) == Moved(db.parts, db.chunks, u)
  {
    var d, moved, less := Reparent(db, u, o), Moved(db.parts, db.chunks, u), ByPartThenIndex(db.parts, db.chunks);
    MovedOrdered(db, u);
    forall c | c in d.chunks ensures d.chunks[c].owner == ObjectOwner(o) <==> c in moved {
      assert c !in Owned(db.chunks, ObjectOwner(o));
    }
    forall a, b | a in d.chunks && b in d.chunks && d.chunks[a].owner == d.chunks[b].owner
      && d.chunks[a].index == d.chunks[b].index
      ensures a == b
    {
      if a in moved && b in moved {
        Orders.RankMonotone(less, moved, a, b);
        Orders.RankMonotone(less, moved, b, a);
      }
    }
    ReparentNoHoles(db, u, o);
  }

  lemma ReparentNoHoles(db: Db, u: UploadId, o: ObjectId)
    requires NoHoles(db) && u in db.uploads && db.uploads[u].state != InProgress
    requires o in db.objects && db.objects[o].state == Uploading
    ensures NoHoles(Reparent(db, u, o))
  {
    var d := Reparent(db, u, o);
    forall owner | Settled(d, owner) ensures AllCommitted(d.chunks, owner, Declared(d, owner)) {
      assert Settled(db, owner);
      forall c | c in db.chunks ensures d.chunks[c].owner == owner <==> db.chunks[c].owner == owner {
      }
      assert Owned(db.chunks, owner) == Owned(d.chunks, owner);
    }
  }

  lemma AssembleCatalog(db: Db, u: UploadId, o: ObjectId)
    requires CatalogInv(db) && u in db.uploads && o !in db.objects
    ensures CatalogInv(Assemble(db, u, o))
    ensures Owned(Assemble(db, u, o).chunks, ObjectOwner(o)) == Moved(db.parts, db.chunks, u)
  {
    var begun := OpenAssembly(db, u, o);
    SessionCatalog(db, begun.uploads, begun.objects);
    assert Owned(begun.chunks, ObjectOwner(o)) == {};
    ReparentCatalog(begun, u, o);
  }

  lemma DiscardCatalog(db: Db, u: UploadId)
    requires CatalogInv(db) && u in db.uploads && db.uploads[u].state != InProgress
    ensures CatalogInv(DiscardLeftovers(db, u))
  {
    var cs := OwnedByParts(db.chunks, PartsOf(db.parts, u));
    CatalogFrame(db, RetireChunks(db, cs));
    OrphanCatalog(RetireChunks(db, cs), cs);
  }

  lemma CompleteMultipartCatalog(db: Db, u: UploadId, o: ObjectId, manifest: seq<PartRef>)
    requires CatalogInv(db)
    ensures CatalogInv(CompleteMultipart(db, u, o, manifest))
  {
    if AssemblyCommits(db, u, o, manifest) {
      var ps := CompleteParts(db.parts, u);
      var size, count := DeclaredSize(db.parts, ps), DeclaredChunks(db.parts, ps);
      var a := Assemble(db, u, o);
      AssembleCatalog(db, u, o);
      assert forall c | c in Owned(a.chunks, ObjectOwner(o)) :: a.chunks[c].state == Committed;
      ShowCatalog(a, o, size, count);
      DiscardCatalog(Show(a, o, size, count), u);
    }
  }

  lemma AbortMultipartCatalog(db: Db, u: UploadId)
    requires CatalogInv(db)
    ensures CatalogInv(AbortMultipart(db, u))
  {
    if AbortMultipart(db, u) != db {
      var d := db.(uploads := db.uploads[u := db.uploads[u].(state := Aborted)]);
      SessionCatalog(db, d.uploads, db.objects);
      FailPartsCatalog(d, PartsOf(db.parts, u));
    }
  }

  lemma DropChunksCatalog(db: Db, cs: set<ChunkId>)
    requires CatalogInv(db)
    requires forall c | c in cs && c in db.chunks :: !Settled(db, db.chunks[c].owner)
    ensures CatalogInv(DropChunks(db, cs))
  {
    var d := DropChunks(db, cs);
    forall owner | Settled(d, owner) ensures AllCommitted(d.chunks, owner, Declared(d, owner)) {
      assert Settled(db, owner) && Owned(db.chunks, owner) == Owned(d.chunks, owner);
    }
  }

  lemma DropObjectsCatalog(db: Db, os: set<ObjectId>)
    requires CatalogInv(db) && OwnedByObjects(db.chunks, os) == {}
    ensures CatalogInv(db.(objects := db.objects - os))
  {
    var d := db.(objects := db.objects - os);
    forall c | c in d.chunks ensures OwnerExists(d, d.chunks[c].owner) {
      assert c !in OwnedByObjects(db.chunks, os);
    }
    forall owner | Settled(d, owner) ensures AllCommitted(d.chunks, owner, Declared(d, owner)) {
      assert Settled(db, owner) && Owned(db.chunks, owner) == Owned(d.chunks, owner);
    }
  }

  lemma PurgeCatalog(db: Db, cs: set<ChunkId>, os: set<ObjectId>)
    requires CatalogInv(db)
    ensures CatalogInv(PurgeReclaimed(db, cs, os))
  {
    var first := DropChunks(db, PurgeableChunks(db, cs));
    forall c | c in PurgeableChunks(db, cs) ensures !Settled(db, db.chunks[c].owner) {
      assert c in Owned(db.chunks, db.chunks[c].owner);
    }
    DropChunksCatalog(db, PurgeableChunks(db, cs));
    var gone := PurgeableObjects(first, os);
    var owned := OwnedByObjects(first.chunks, gone);
    DropChunksCatalog(first, owned);
    assert OwnedByObjects(DropChunks(first, owned).chunks, gone) == {};
    DropObjectsCatalog(DropChunks(first, owned), gone);
  }

  lemma PurgeUploadsCatalog(db: Db, us: set<UploadId>)
    requires CatalogInv(db)
    ensures CatalogInv(PurgeUploads(db, us))
  {
    var d := PurgeUploads(db, us);
    forall c | c in d.chunks ensures OwnerExists(d, d.chunks[c].owner) {
      if d.chunks[c].owner.PartOwner? {
        var u := db.parts[d.chunks[c].owner.pid].upload;
        assert c in OwnedByParts(db.chunks, PartsOf(db.parts, u));
      }
    }
    forall owner | Settled(d, owner) ensures AllCommitted(d.chunks, owner, Declared(d, owner)) {
      assert Settled(db, owner) && Owned(db.chunks, owner) == Owned(d.chunks, owner);
    }
  }

  // ----------------------------------- replica rows under catalogue transactions

  lemma ReplicaFrame(db: Db, d: Db)
    requires ReplicaInv(db) && d.chunks.Keys == db.chunks.Keys
    requires d == db.(objects := d.objects, uploads := d.uploads, parts := d.parts, chunks := d.chunks,
                      jobs := d.jobs, serial := d.serial, now := d.now)
    ensures ReplicaInv(d)
  {
  }

  lemma MintReplicas(db: Db, id: ChunkId, owner: Owner, index: nat, size: nat)
    requires ReplicaInv(db) && id !in db.chunks
    ensures ReplicaInv(MintChunk(db, id, owner, index, size))
  {
    var d := MintChunk(db, id, owner, index, size);
    forall n ensures n !in AvailableNodes(db.replicas, id) {
      assert Loc(id, n).chunk !in db.chunks;
    }
    assert AvailableNodes(d.replicas, id) == {};
  }

  lemma CommitReplicas(db: Db, c: ChunkId, ok: set<NodeId>, bad: set<NodeId>)
    requires ReplicaInv(db) && c in db.chunks && ok <= db.nodes.Keys
    ensures ReplicaInv(CommitRows(db, c, ok, bad))
  {
    WriteKeeps(db, FailedRows(db, c, bad), {});
    WriteKeeps(WriteReplicas(db, FailedRows(db, c, bad), {}), RowsOn(c, ok, Available), {});
  }

  lemma ShowReplicas(db: Db, o: ObjectId, size: nat, count: nat)
    requires ReplicaInv(db) && o in db.objects
    ensures ReplicaInv(Show(db, o, size, count))
  {
    var prior := CompleteVersions(db.objects, db.objects[o].key) - {o};
    var noted := SetObjectStates(db, prior, Retiring);
    ReplicaFrame(db, noted);
    RetireKeeps(noted, OwnedByObjects(db.chunks, prior));
    ReplicaFrame(RetireChunks(noted, OwnedByObjects(db.chunks, prior)), Show(db, o, size, count));
  }

  lemma AbortReplicas(db: Db, os: set<ObjectId>)
    requires ReplicaInv(db)
    ensures ReplicaInv(AbortUploads(db, os))
  {
    var hit := InFlight(db, os);
    var noted := OrphanChunks(SetObjectStates(db, hit, Failed), OwnedByObjects(db.chunks, hit));
    ReplicaFrame(db, noted);
    RetireKeeps(noted, OwnedByObjects(db.chunks, hit));
  }

  lemma DeleteReplicas(db: Db, k: Key)
    requires ReplicaInv(db)
    ensures ReplicaInv(DeleteObject(db, k))
  {
    var prior := CompleteVersions(db.objects, k);
    var noted := SetObjectStates(db, prior, Retiring);
    ReplicaFrame(db, noted);
    RetireKeeps(noted, OwnedByObjects(db.chunks, prior));
  }

  lemma FailPartsReplicas(db: Db, ps: set<PartId>)
    requires ReplicaInv(db)
    ensures ReplicaInv(FailParts(db, ps))
  {
    var cs := OwnedByParts(db.chunks, ps);
    ReplicaFrame(db, OrphanChunks(SetPartsFailed(db, ps), cs));
    RetireKeeps(OrphanChunks(SetPartsFailed(db, ps), cs), cs);
  }

  lemma DiscardReplicas(db: Db, u: UploadId)
    requires ReplicaInv(db)
    ensures ReplicaInv(DiscardLeftovers(db, u))
  {
    var cs := OwnedByParts(db.chunks, PartsOf(db.parts, u));
    RetireKeeps(db, cs);
    ReplicaFrame(RetireChunks(db, cs), DiscardLeftovers(db, u));
  }

  lemma CompleteMultipartReplicas(db: Db, u: UploadId, o: ObjectId, manifest: seq<PartRef>)
    requires ReplicaInv(db)
    ensures ReplicaInv(CompleteMultipart(db, u, o, manifest))
  {
    if AssemblyCommits(db, u, o, manifest) {
      var ps := CompleteParts(db.parts, u);
      var size, count := DeclaredSize(db.parts, ps), DeclaredChunks(db.parts, ps);
      var a := Assemble(db, u, o);
      ReplicaFrame(db, a);
      ShowReplicas(a, o, size, count);
      DiscardReplicas(Show(a, o, size, count), u);
    }
  }

  lemma DropChunksReplicas(db: Db, cs: set<ChunkId>)
    requires ReplicaInv(db) && forall c | c in cs :: Reclaimed(db, c)
    ensures ReplicaInv(DropChunks(db, cs))
  {
  }

  lemma PurgeReplicas(db: Db, cs: set<ChunkId>, os: set<ObjectId>)
    requires ReplicaInv(db)
    ensures ReplicaInv(PurgeReclaimed(db, cs, os))
  {
    var first := DropChunks(db, PurgeableChunks(db, cs));
    DropChunksReplicas(db, PurgeableChunks(db, cs));
    var gone := PurgeableObjects(first, os);
    var owned := OwnedByObjects(first.chunks, gone);
    forall c | c in owned ensures Reclaimed(first, c) {
      assert c in Owned(first.chunks, ObjectOwner(first.chunks[c].owner.oid));
    }
    DropChunksReplicas(first, owned);
    ReplicaFrame(DropChunks(first, owned), PurgeReclaimed(db, cs, os));
  }

  // ---------------------------------------------------------------- repair jobs

  lemma JobsFrame(db: Db, d: Db)
    requires OneJob(db) && db.serial <= d.serial && db.chunks.Keys <= d.chunks.Keys
    requires d == db.(nodes := d.nodes, objects := d.objects, uploads := d.uploads, parts := d.parts,
                      chunks := d.chunks, available := d.available, replicas := d.replicas,
                      deletions := d.deletions, serial := d.serial)
    ensures OneJob(d)
  {
  }

  lemma SetJobKeeps(db: Db, j: JobId, row: JobRow)
    requires OneJob(db) && j in db.jobs
    requires Active(row) && !Active(db.jobs[j]) ==> !RequeueConflicts(db, j)
    ensures OneJob(SetJob(db, j, row))
  {
  }

  lemma EnqueueJobs(db: Db, rf: nat, batch: set<ChunkId>)
    requires OneJob(db)
    ensures OneJob(EnqueueRepairs(db, rf, batch))
  {
    var added := NewJobs(db, rf, batch);
    forall j | j in added ensures j.serial == db.serial && j.chunk in db.chunks {
    }
    forall i, j | i in db.jobs && Active(db.jobs[i]) && j in added ensures i.chunk != j.chunk {
    }
  }

  lemma RequeueJobs(db: Db, batch: set<JobId>)
    requires OneJob(db)
    ensures OneJob(RequeueFailed(db, batch))
  {
    if !RequeueAborts(db, batch) {
      ReviveKeeps(db, Requeueable(db, batch));
    }
  }

  lemma ReviveKeeps(db: Db, js: set<JobId>)
    requires OneJob(db)
    requires forall i, j | i in db.jobs && Active(db.jobs[i]) && j in js :: i.chunk != j.chunk
    requires forall i, j | i in js && j in js && i.chunk == j.chunk :: i == j
    ensures OneJob(Revive(db, js))
  {
  }

  lemma ClaimJobs(db: Db, j: JobId, lease: nat)
    requires OneJob(db)
    ensures OneJob(ClaimRepair(db, j, lease))
  {
    if Claimable(db, j) {
      SetJobKeeps(db, j, ClaimRepair(db, j, lease).jobs[j]);
    }
  }

  lemma FailJobs(db: Db, j: JobId, backoff: nat, max: nat)
    requires OneJob(db)
    ensures OneJob(FailRepair(db, j, backoff, max))
  {
    if j in db.jobs {
      SetJobKeeps(db, j, FailRepair(db, j, backoff, max).jobs[j]);
    }
  }

  lemma RepairStepJobs(db: Db, s: RepairStep)
    requires OneJob(db)
    ensures OneJob(ApplyRepair(db, s))
  {
    match s
    case DoEnqueue(rf, cs) => EnqueueJobs(db, rf, cs);
    case DoReclaimLeases => ReclaimJobs(db);
    case DoClaim(j, lease) => ClaimJobs(db, j, lease);
    case DoCompleteRepair(j, dest) =>
      JobsFrame(db, SetReplica(db, Loc(j.chunk, dest), Available));
      CloseJobKeeps(SetReplica(db, Loc(j.chunk, dest), Available), j);
    case DoCloseJob(j) => CloseJobKeeps(db, j);
    case DoFailRepair(j, backoff, max) => FailJobs(db, j, backoff, max);
    case DoRequeue(js) => RequeueJobs(db, js);
    case DoPurgeJobs(rf, js) => PurgeJobsJobs(db, rf, js);
  }

  lemma ReclaimJobs(db: Db)
    requires OneJob(db)
    ensures OneJob(ReclaimLeases(db))
  {
  }

  lemma PurgeJobsJobs(db: Db, rf: nat, batch: set<JobId>)
    requires OneJob(db)
    ensures OneJob(PurgeJobs(db, rf, batch))
  {
  }

  lemma CloseJobKeeps(db: Db, j: JobId)
    requires OneJob(db)
    ensures OneJob(CloseJob(db, j))
  {
    if j in db.jobs {
      SetJobKeeps(db, j, CloseJob(db, j).jobs[j]);
    }
  }

  lemma DropChunksJobs(db: Db, cs: set<ChunkId>)
    requires OneJob(db)
    ensures OneJob(DropChunks(db, cs))
  {
  }

  // ----------------------------------------------------------------- every step

  lemma CommitCatalogInv(db: Db, c: ChunkId, sum: string, size: nat, ok: set<NodeId>, bad: set<NodeId>, min: nat)
    requires CatalogInv(db)
    ensures CatalogInv(CommitChunk(db, c, sum, size, ok, bad, min))
  {
    if CommitAccepted(db, c, sum, ok, bad, min) {
      CatalogFrame(db, CommitRows(db, c, ok, bad));
      CommitCatalog(CommitRows(db, c, ok, bad), c, sum, size);
    }
  }

  lemma ReserveCatalog(db: Db, id: ChunkId, owner: Owner, index: nat, size: nat)
    requires CatalogInv(db)
    ensures CatalogInv(ReserveChunk(db, id, owner, index, size))
  {
    var taken := AtPosition(db.chunks, owner, index);
    if Writable(db, owner) {
      if taken != {} {
        ReuseCatalog(db, taken, size);
      } else if id !in db.chunks && id != 0 {
        MintCatalog(db, id, owner, index, size);
      }
    }
  }

  lemma FailedUnsettled(db: Db, hit: set<ObjectId>)
    ensures var failed := SetObjectStates(db, hit, Failed);
      forall c | c in OwnedByObjects(db.chunks, hit) && c in failed.chunks :: !Settled(failed, failed.chunks[c].owner)
  {
  }

  lemma AbortCatalog(db: Db, os: set<ObjectId>)
    requires CatalogInv(db)
    ensures CatalogInv(AbortUploads(db, os))
  {
    var hit := InFlight(db, os);
    if hit != {} {
      var failed := SetObjectStates(db, hit, Failed);
      var cs := OwnedByObjects(db.chunks, hit);
      ObjectStatesCatalog(db, hit, Failed);
      FailedUnsettled(db, hit);
      OrphanCatalog(failed, cs);
      CatalogFrame(OrphanChunks(failed, cs), AbortUploads(db, os));
    }
  }

  lemma DeleteCatalog(db: Db, k: Key)
    requires CatalogInv(db)
    ensures CatalogInv(DeleteObject(db, k))
  {
    var prior := CompleteVersions(db.objects, k);
    var noted := SetObjectStates(db, prior, Retiring);
    ObjectStatesCatalog(db, prior, Retiring);
    CatalogFrame(noted, RetireChunks(noted, OwnedByObjects(db.chunks, prior)));
  }

  lemma UploadStepCatalog(db: Db, s: UploadStep)
    requires CatalogInv(db)
    ensures CatalogInv(ApplyUpload(db, s))
  {
    match s
    case DoReserve(id, owner, index, size) => ReserveCatalog(db, id, owner, index, size);
    case DoCommit(c, sum, size, ok, bad, min) => CommitCatalogInv(db, c, sum, size, ok, bad, min);
    case DoBeginUpload(o, k) =>
      if o !in db.objects {
        SessionCatalog(db, db.uploads, BeginUpload(db, o, k).objects);
      }
    case DoCompleteUpload(o, size, count) =>
      if CompleteAccepted(db, o, count) {
        ShowCatalog(db, o, size, count);
      }
    case DoAbortUploads(os) => AbortCatalog(db, os);
    case DoDeleteObject(k) => DeleteCatalog(db, k);
  }

  lemma CommitReplicaInv(db: Db, c: ChunkId, sum: string, size: nat, ok: set<NodeId>, bad: set<NodeId>, min: nat)
    requires ReplicaInv(db)
    ensures ReplicaInv(CommitChunk(db, c, sum, size, ok, bad, min))
  {
    if CommitAccepted(db, c, sum, ok, bad, min) {
      CommitReplicas(db, c, ok, bad);
      ReplicaFrame(CommitRows(db, c, ok, bad), CommitChunk(db, c, sum, size, ok, bad, min));
    }
  }

  lemma UploadStepReplicas(db: Db, s: UploadStep)
    requires ReplicaInv(db)
    ensures ReplicaInv(ApplyUpload(db, s))
  {
    match s
    case DoReserve(id, owner, index, size) =>
      var taken := AtPosition(db.chunks, owner, index);
      if taken != {} {
        ReplicaFrame(db, ReuseChunks(db, taken, size));
      } else if id !in db.chunks {
        MintReplicas(db, id, owner, index, size);
      }
    case DoCommit(c, sum, size, ok, bad, min) => CommitReplicaInv(db, c, sum, size, ok, bad, min);
    case DoBeginUpload(o, k) => ReplicaFrame(db, BeginUpload(db, o, k));
    case DoCompleteUpload(o, size, count) =>
      if CompleteAccepted(db, o, count) {
        ShowReplicas(db, o, size, count);
      }
    case DoAbortUploads(os) => AbortReplicas(db, os);
    case DoDeleteObject(k) => DeleteReplicas(db, k);
  }

  lemma MultipartStepCatalog(db: Db, s: MultipartStep)
    requires CatalogInv(db)
    ensures CatalogInv(ApplyMultipart(db, s))
  {
    match s
    case DoCreateMultipart(u, k) =>
      if u !in db.uploads {
        SessionCatalog(db, CreateMultipart(db, u, k).uploads, db.objects);
      }
    case DoBeginPart(p, u, number) => BeginPartCatalog(db, p, u, number);
    case DoCompletePart(p, size, count, etag) => CompletePartCatalog(db, p, size, count, etag);
    case DoCompleteMultipart(u, o, manifest) => CompleteMultipartCatalog(db, u, o, manifest);
    case DoAbortMultipart(u) => AbortMultipartCatalog(db, u);
    case DoPurgeUploads(us) => PurgeUploadsCatalog(db, us);
  }

  lemma BeginPartReplicas(db: Db, p: PartId, u: UploadId, number: nat)
    requires ReplicaInv(db)
    ensures ReplicaInv(BeginPart(db, p, u, number))
  {
    var ps := PriorAttempts(db.parts, u, number);
    if BeginPart(db, p, u, number) != db {
      FailPartsReplicas(db, ps);
      ReplicaFrame(FailParts(db, ps), BeginPart(db, p, u, number));
    }
  }

  lemma AbortMultipartReplicas(db: Db, u: UploadId)
    requires ReplicaInv(db)
    ensures ReplicaInv(AbortMultipart(db, u))
  {
    if AbortMultipart(db, u) != db {
      var closed := db.(uploads := db.uploads[u := db.uploads[u].(state := Aborted)]);
      ReplicaFrame(db, closed);
      FailPartsReplicas(closed, PartsOf(db.parts, u));
    }
  }

  lemma MultipartStepReplicas(db: Db, s: MultipartStep)
    requires ReplicaInv(db)
    ensures ReplicaInv(ApplyMultipart(db, s))
  {
    match s
    case DoCreateMultipart(u, k) => ReplicaFrame(db, CreateMultipart(db, u, k));
    case DoBeginPart(p, u, number) => BeginPartReplicas(db, p, u, number);
    case DoCompletePart(p, size, count, etag) => ReplicaFrame(db, CompletePart(db, p, size, count, etag));
    case DoCompleteMultipart(u, o, manifest) => CompleteMultipartReplicas(db, u, o, manifest);
    case DoAbortMultipart(u) => AbortMultipartReplicas(db, u);
    case DoPurgeUploads(us) => ReplicaFrame(db, PurgeUploads(db, us));
  }

  lemma CompleteRepairReplicas(db: Db, j: JobId, dest: NodeId)
    requires ReplicaInv(db)
    ensures ReplicaInv(CompleteRepair(db, j, dest))
  {
    if j.chunk in db.chunks && dest in db.nodes {
      var l := Loc(j.chunk, dest);
      WriteKeeps(db, map[l := Available], {});
      ReplicaFrame(SetReplica(db, l, Available), CloseJob(SetReplica(db, l, Available), j));
    }
  }

  lemma RepairStepReplicas(db: Db, s: RepairStep)
    requires ReplicaInv(db)
    ensures ReplicaInv(ApplyRepair(db, s))
  {
    match s
    case DoEnqueue(rf, cs) => ReplicaFrame(db, EnqueueRepairs(db, rf, cs));
    case DoReclaimLeases => ReplicaFrame(db, ReclaimLeases(db));
    case DoClaim(j, lease) => ReplicaFrame(db, ClaimRepair(db, j, lease));
    case DoCompleteRepair(j, dest) => CompleteRepairReplicas(db, j, dest);
    case DoCloseJob(j) => ReplicaFrame(db, CloseJob(db, j));
    case DoFailRepair(j, backoff, max) => ReplicaFrame(db, FailRepair(db, j, backoff, max));
    case DoRequeue(js) => ReplicaFrame(db, RequeueFailed(db, js));
    case DoPurgeJobs(rf, js) => ReplicaFrame(db, PurgeJobs(db, rf, js));
  }

  /** Removing a deletion job whose location no longer has a DELETING row. */
  lemma RemoveDeletionKeeps(db: Db, l: Loc, serial: nat)
    requires ReplicaInv(db) && (l in db.replicas ==> db.replicas[l] != Deleting)
    ensures ReplicaInv(RemoveDeletion(db, l, serial))
  {
  }

  lemma ExpireDeletionReplicas(db: Db, l: Loc, serial: nat)
    requires ReplicaInv(db)
    ensures ReplicaInv(ExpireDeletion(db, l, serial))
  {
    var gone := DeletingRows(db, l.chunk) * {l};
    WriteKeeps(db, map[], gone);
    RemoveDeletionKeeps(WriteReplicas(db, map[], gone), l, serial);
  }

  lemma FailDeletionReplicas(db: Db, l: Loc, serial: nat, backoff: nat, max: nat)
    requires ReplicaInv(db)
    ensures ReplicaInv(FailDeletion(db, l, serial, backoff, max))
  {
    ExpireDeletionReplicas(db, l, serial);
  }

  lemma GcStepReplicas(db: Db, s: GcStep)
    requires ReplicaInv(db)
    ensures ReplicaInv(ApplyGc(db, s))
  {
    match s
    case DoClaimDeletions(ls, lease) =>
    case DoFinishDeletion(l, serial) =>
      WriteKeeps(db, map[], {l});
      RemoveDeletionKeeps(WriteReplicas(db, map[], {l}), l, serial);
    case DoFailDeletion(l, serial, backoff, max) => FailDeletionReplicas(db, l, serial, backoff, max);
    case DoPurge(cs, os) => PurgeReplicas(db, cs, os);
  }

  lemma PurgeJobsKept(db: Db, cs: set<ChunkId>, os: set<ObjectId>)
    requires OneJob(db)
    ensures OneJob(PurgeReclaimed(db, cs, os))
  {
    var first := DropChunks(db, PurgeableChunks(db, cs));
    DropChunksJobs(db, PurgeableChunks(db, cs));
    DropChunksJobs(first, OwnedByObjects(first.chunks, PurgeableObjects(first, os)));
  }

  lemma GcStepCatalog(db: Db, s: GcStep)
    requires CatalogInv(db)
    ensures CatalogInv(ApplyGc(db, s))
  {
    match s
    case DoClaimDeletions(ls, lease) => CatalogFrame(db, ClaimDeletions(db, ls, lease));
    case DoFinishDeletion(l, serial) => CatalogFrame(db, FinishDeletion(db, l, serial));
    case DoFailDeletion(l, serial, backoff, max) => CatalogFrame(db, FailDeletion(db, l, serial, backoff, max));
    case DoPurge(cs, os) => PurgeCatalog(db, cs, os);
  }

  lemma RetiredChunksRemain(db: Db, s: UploadStep)
    requires s.DoCompleteUpload? || s.DoAbortUploads? || s.DoDeleteObject? || s.DoBeginUpload?
    ensures ApplyUpload(db, s).chunks.Keys == db.chunks.Keys
  {
  }

  lemma ReservedChunks(db: Db, id: ChunkId, owner: Owner, index: nat, size: nat)
    ensures db.chunks.Keys <= ReserveChunk(db, id, owner, index, size).chunks.Keys <= db.chunks.Keys + {id}
  {
  }

  lemma UploadChunksRemain(db: Db, s: UploadStep)
    ensures db.chunks.Keys <= ApplyUpload(db, s).chunks.Keys
    ensures ApplyUpload(db, s).chunks.Keys <= db.chunks.Keys + (if s.DoReserve? then {s.id} else {})
  {
    match s
    case DoReserve(id, owner, index, size) => ReservedChunks(db, id, owner, index, size);
    case DoCommit(c, sum, size, ok, bad, min) =>
    case _ => RetiredChunksRemain(db, s);
  }

  lemma MultipartChunksRemain(db: Db, s: MultipartStep)
    ensures db.chunks.Keys == ApplyMultipart(db, s).chunks.Keys
  {
    match s
    case DoCreateMultipart(u, k) =>
    case DoBeginPart(p, u, number) =>
    case DoCompletePart(p, size, count, etag) =>
    case DoCompleteMultipart(u, o, manifest) =>
    case DoAbortMultipart(u) =>
    case DoPurgeUploads(us) =>
  }

  lemma StepJobs(db: Db, s: Step)
    requires OneJob(db)
    ensures OneJob(Apply(db, s))
  {
    match s
    case OnReplicas(r) => JobsFrame(db, ApplyReplica(db, r));
    case OnUploads(u) =>
      UploadChunksRemain(db, u);
      JobsFrame(db, ApplyUpload(db, u));
    case OnMultipart(m) =>
      MultipartChunksRemain(db, m);
      JobsFrame(db, ApplyMultipart(db, m));
    case OnRepairs(j) => RepairStepJobs(db, j);
    case OnGc(g) => GcStepJobs(db, g);
    case Tick(dt) =>
  }

  lemma GcStepJobs(db: Db, s: GcStep)
    requires OneJob(db)
    ensures OneJob(ApplyGc(db, s))
  {
    match s
    case DoClaimDeletions(ls, lease) => JobsFrame(db, ClaimDeletions(db, ls, lease));
    case DoFinishDeletion(l, serial) => JobsFrame(db, FinishDeletion(db, l, serial));
    case DoFailDeletion(l, serial, backoff, max) => JobsFrame(db, FailDeletion(db, l, serial, backoff, max));
    case DoPurge(cs, os) => PurgeJobsKept(db, cs, os);
  }

  lemma StepCatalog(db: Db, s: Step)
    requires CatalogInv(db)
    ensures CatalogInv(Apply(db, s))
  {
    match s
    case OnReplicas(r) => CatalogFrame(db, ApplyReplica(db, r));
    case OnUploads(u) => UploadStepCatalog(db, u);
    case OnMultipart(m) => MultipartStepCatalog(db, m);
    case OnRepairs(j) => CatalogFrame(db, ApplyRepair(db, j));
    case OnGc(g) => GcStepCatalog(db, g);
    case Tick(dt) => CatalogFrame(db, db.(now := db.now + dt));
  }

  lemma StepReplicas(db: Db, s: Step)
    requires ReplicaInv(db)
    ensures ReplicaInv(Apply(db, s))
  {
    match s
    case OnReplicas(r) => ReplicaStepKeeps(db, r);
    case OnUploads(u) => UploadStepReplicas(db, u);
    case OnMultipart(m) => MultipartStepReplicas(db, m);
    case OnRepairs(j) => RepairStepReplicas(db, j);
    case OnGc(g) => GcStepReplicas(db, g);
    case Tick(dt) =>
  }

  /** Every step keeps every invariant. */
  lemma StepInv(db: Db, s: Step)
    requires Inv(db)
    ensures Inv(Apply(db, s))
  {
    StepCatalog(db, s);
    StepReplicas(db, s);
    StepJobs(db, s);
  }

  /** The same, for a state already known to be what the step leads to. */
  lemma StepKeeps(db: Db, s: Step, d: Db)
    requires Inv(db) && d == Apply(db, s)
    ensures Inv(d)
  {
    StepInv(db, s);
  }

  /** Every state of every run of the store satisfies the invariants. */
  lemma {:induction false} RunInv(db: Db, steps: seq<Step>)
    requires Inv(db)
    ensures Inv(Run(db, steps))
    decreases |steps|
  {
    if steps != [] {
      RunInv(db, steps[..|steps| - 1]);
      StepInv(Run(db, steps[..|steps| - 1]), steps[|steps| - 1]);
    }
  }

  lemma EmptyInv()
    ensures Inv(Empty)
  {
    assert forall owner :: !Settled(Empty, owner);
  }

  /** Reachable from a fresh database. */
  lemma ReachableInv(steps: seq<Step>)
    ensures Inv(Run(Empty, steps))
  {
    EmptyInv();
    RunInv(Empty, steps);
  }
}
