/** An object put into the store stays readable, byte for byte, through whatever happens to the store. */
module Permanence {
  import opened Tables
  import opened Transactions
  import opened Invariants
  import opened Workers
  import opened Lifecycles
  import opened Uploads
  import opened Fetching
  import opened Gateway
  import opened RoundTrip
  import Durability
  import Effects
  import Layout
  import Multipart
  import Orders
  import Splitting

  // ------------------------------------------------- the rows of a complete object

  type Chunks = map<ChunkId, ChunkRow>

  /** The object is COMPLETE, as declared, and owns exactly these chunk rows. */
  ghost predicate Intact(db: Db, o: ObjectId, row: ObjectRow, rows: Chunks) {
    && o in db.objects && db.objects[o] == row && row.state == Complete
    && Owned(db.chunks, ObjectOwner(o)) == rows.Keys
    && forall c | c in rows :: c in db.chunks && db.chunks[c] == rows[c] && rows[c].state == Committed
  }

  /** Intact, or over. */
  ghost predicate Lasts(db: Db, o: ObjectId, row: ObjectRow, rows: Chunks) {
    Intact(db, o, row, rows) || RetiredIn(db, o, rows.Keys)
  }

  /** The step commits one of these chunks again, with another size or digest. */
  predicate Recommits(s: Step, rows: Chunks) {
    && s.OnUploads? && s.u.DoCommit? && s.u.c in rows
    && !(s.u.sum == rows[s.u.c].checksum && s.u.size == rows[s.u.c].size)
  }

  /** Other chunks may come, go and change hands, but not to or from the object. */
  lemma IntactChunks(db: Db, d: Db, o: ObjectId, row: ObjectRow, rows: Chunks)
    requires Intact(db, o, row, rows) && o in d.objects && d.objects[o] == row
    requires forall c | c in rows :: c in d.chunks && d.chunks[c] == db.chunks[c]
    requires forall c | c in d.chunks && c !in rows :: d.chunks[c].owner != ObjectOwner(o)
    ensures Intact(d, o, row, rows)
  {
  }

  /** Chunks outside `rows` do not belong to the object. */
  lemma Outside(db: Db, o: ObjectId, row: ObjectRow, rows: Chunks)
    requires Intact(db, o, row, rows)
    ensures forall c | c in db.chunks :: c in rows <==> db.chunks[c].owner == ObjectOwner(o)
  {
    assert forall c | c in db.chunks :: c in Owned(db.chunks, ObjectOwner(o)) <==> db.chunks[c].owner == ObjectOwner(o);
  }

  lemma IntactReuse(db: Db, taken: set<ChunkId>, size: nat, o: ObjectId, row: ObjectRow, rows: Chunks)
    requires Intact(db, o, row, rows) && taken !! rows.Keys
    ensures Intact(ReuseChunks(db, taken, size), o, row, rows)
  {
    Outside(db, o, row, rows);
    IntactChunks(db, ReuseChunks(db, taken, size), o, row, rows);
  }

  lemma IntactMint(db: Db, id: ChunkId, owner: Owner, index: nat, size: nat, o: ObjectId, row: ObjectRow, rows: Chunks)
    requires Intact(db, o, row, rows) && id !in db.chunks && owner != ObjectOwner(o)
    ensures Intact(MintChunk(db, id, owner, index, size), o, row, rows)
  {
    Outside(db, o, row, rows);
    IntactChunks(db, MintChunk(db, id, owner, index, size), o, row, rows);
  }

  lemma IntactReserve(db: Db, id: ChunkId, owner: Owner, index: nat, size: nat, o: ObjectId, row: ObjectRow,
                      rows: Chunks)
    requires Intact(db, o, row, rows)
    ensures Intact(ReserveChunk(db, id, owner, index, size), o, row, rows)
  {
    var taken := AtPosition(db.chunks, owner, index);
    if !Writable(db, owner) {
    } else if taken != {} {
      Outside(db, o, row, rows);
      IntactReuse(db, taken, size, o, row, rows);
    } else if id !in db.chunks && id != 0 {
      IntactMint(db, id, owner, index, size, o, row, rows);
    }
  }

  lemma IntactCommit(db: Db, k: ChunkId, sum: string, size: nat, ok: set<NodeId>, bad: set<NodeId>, min: nat,
                     o: ObjectId, row: ObjectRow, rows: Chunks)
    requires Intact(db, o, row, rows) && (k in rows ==> sum == rows[k].checksum && size == rows[k].size)
    ensures Intact(CommitChunk(db, k, sum, size, ok, bad, min), o, row, rows)
  {
    if CommitAccepted(db, k, sum, ok, bad, min) {
      IntactRow(db, CommitChunk(db, k, sum, size, ok, bad, min), k, sum, size, o, row, rows);
    }
  }

  lemma IntactRow(db: Db, d: Db, k: ChunkId, sum: string, size: nat, o: ObjectId, row: ObjectRow, rows: Chunks)
    requires Intact(db, o, row, rows) && (k in rows ==> sum == rows[k].checksum && size == rows[k].size)
    requires k in db.chunks && d.objects == db.objects
    requires d.chunks == db.chunks[k := db.chunks[k].(checksum := sum, size := size, state := Committed)]
    ensures Intact(d, o, row, rows)
  {
    Outside(db, o, row, rows);
    IntactChunks(db, d, o, row, rows);
  }

  /** The condition is exact: an accepted commit of one of its chunks leaves it intact if and only if it repeats it. */
  lemma RecommitIff(db: Db, k: ChunkId, sum: string, size: nat, ok: set<NodeId>, bad: set<NodeId>, min: nat,
                    o: ObjectId, row: ObjectRow, rows: Chunks)
    requires Intact(db, o, row, rows) && k in rows && CommitAccepted(db, k, sum, ok, bad, min)
    ensures Intact(CommitChunk(db, k, sum, size, ok, bad, min), o, row, rows) <==>
            sum == rows[k].checksum && size == rows[k].size
  {
    var d := CommitChunk(db, k, sum, size, ok, bad, min);
    assert d.chunks[k] == db.chunks[k].(checksum := sum, size := size, state := Committed);
    if sum == rows[k].checksum && size == rows[k].size {
      IntactCommit(db, k, sum, size, ok, bad, min, o, row, rows);
    }
  }

  /** Publishing another version leaves the object alone or retires it. */
  lemma ShowLasts(db: Db, v: ObjectId, size: nat, count: nat, o: ObjectId, row: ObjectRow, rows: Chunks)
    requires Intact(db, o, row, rows) && v in db.objects && v != o
    ensures Lasts(Show(db, v, size, count), o, row, rows)
  {
    assert Show(db, v, size, count).chunks == db.chunks;
  }

  lemma DeleteLasts(db: Db, k: Key, o: ObjectId, row: ObjectRow, rows: Chunks)
    requires Intact(db, o, row, rows)
    ensures Lasts(DeleteObject(db, k), o, row, rows)
  {
    assert DeleteObject(db, k).chunks == db.chunks;
  }

  lemma OrphansLast(db: Db, cs: set<ChunkId>, o: ObjectId, row: ObjectRow, rows: Chunks)
    requires Intact(db, o, row, rows) && cs !! rows.Keys
    ensures Intact(OrphanChunks(db, cs), o, row, rows)
  {
    Outside(db, o, row, rows);
    IntactChunks(db, OrphanChunks(db, cs), o, row, rows);
  }

  lemma IntactFrame(db: Db, d: Db, o: ObjectId, row: ObjectRow, rows: Chunks)
    requires Intact(db, o, row, rows) && d.chunks == db.chunks && o in d.objects && d.objects[o] == db.objects[o]
    ensures Intact(d, o, row, rows)
  {
  }

  lemma AbortLasts(db: Db, os: set<ObjectId>, o: ObjectId, row: ObjectRow, rows: Chunks)
    requires Intact(db, o, row, rows)
    ensures Intact(AbortUploads(db, os), o, row, rows)
  {
    var hit := InFlight(db, os);
    if hit != {} {
      var failed, cs := SetObjectStates(db, hit, Failed), OwnedByObjects(db.chunks, hit);
      IntactFrame(db, failed, o, row, rows);
      assert forall c | c in rows :: c in Owned(db.chunks, ObjectOwner(o));
      OrphansLast(failed, cs, o, row, rows);
      IntactFrame(OrphanChunks(failed, cs), AbortUploads(db, os), o, row, rows);
    }
  }

  lemma UploadLasts(db: Db, s: UploadStep, o: ObjectId, row: ObjectRow, rows: Chunks)
    requires Intact(db, o, row, rows) && !Mints(OnUploads(s), o) && !Recommits(OnUploads(s), rows)
    ensures Lasts(ApplyUpload(db, s), o, row, rows)
  {
    match s
    case DoReserve(id, owner, index, size) => IntactReserve(db, id, owner, index, size, o, row, rows);
    case DoCommit(k, sum, size, ok, bad, min) => IntactCommit(db, k, sum, size, ok, bad, min, o, row, rows);
    case DoBeginUpload(v, k) => IntactFrame(db, BeginUpload(db, v, k), o, row, rows);
    case DoCompleteUpload(v, size, count) =>
      if CompleteAccepted(db, v, count) {
        ShowLasts(db, v, size, count, o, row, rows);
      }
    case DoAbortUploads(os) => AbortLasts(db, os, o, row, rows);
    case DoDeleteObject(k) => DeleteLasts(db, k, o, row, rows);
  }

  lemma PartOwned(db: Db, ps: set<PartId>, o: ObjectId, row: ObjectRow, rows: Chunks)
    requires Intact(db, o, row, rows)
    ensures OwnedByParts(db.chunks, ps) !! rows.Keys
  {
    assert forall c | c in rows :: c in Owned(db.chunks, ObjectOwner(o));
  }

  lemma FailPartsLasts(db: Db, ps: set<PartId>, o: ObjectId, row: ObjectRow, rows: Chunks)
    requires Intact(db, o, row, rows)
    ensures Intact(FailParts(db, ps), o, row, rows)
  {
    var failed, cs := SetPartsFailed(db, ps), OwnedByParts(db.chunks, ps);
    IntactFrame(db, failed, o, row, rows);
    PartOwned(db, ps, o, row, rows);
    OrphansLast(failed, cs, o, row, rows);
    IntactFrame(OrphanChunks(failed, cs), FailParts(db, ps), o, row, rows);
  }

  lemma BeginPartLasts(db: Db, p: PartId, u: UploadId, number: nat, o: ObjectId, row: ObjectRow, rows: Chunks)
    requires Intact(db, o, row, rows)
    ensures Intact(BeginPart(db, p, u, number), o, row, rows)
  {
    var ps := PriorAttempts(db.parts, u, number);
    FailPartsLasts(db, ps, o, row, rows);
    if BeginPart(db, p, u, number) != db {
      IntactFrame(FailParts(db, ps), BeginPart(db, p, u, number), o, row, rows);
    }
  }

  lemma AbortSessionLasts(db: Db, u: UploadId, o: ObjectId, row: ObjectRow, rows: Chunks)
    requires Intact(db, o, row, rows)
    ensures Intact(AbortMultipart(db, u), o, row, rows)
  {
    if u in db.uploads {
      var closed := db.(uploads := db.uploads[u := db.uploads[u].(state := Aborted)]);
      IntactFrame(db, closed, o, row, rows);
      FailPartsLasts(closed, PartsOf(db.parts, u), o, row, rows);
    }
  }

  lemma AssembleLasts(db: Db, u: UploadId, v: ObjectId, o: ObjectId, row: ObjectRow, rows: Chunks)
    requires Intact(db, o, row, rows) && u in db.uploads && v != o
    ensures Intact(Assemble(db, u, v), o, row, rows)
  {
    var a := Assemble(db, u, v);
    PartOwned(db, CompleteParts(db.parts, u), o, row, rows);
    Outside(db, o, row, rows);
    IntactChunks(db, a, o, row, rows);
  }

  lemma DiscardLasts(db: Db, u: UploadId, o: ObjectId, row: ObjectRow, rows: Chunks)
    requires Lasts(db, o, row, rows)
    ensures Lasts(DiscardLeftovers(db, u), o, row, rows)
  {
    var left := OwnedByParts(db.chunks, PartsOf(db.parts, u));
    var retired := RetireChunks(db, left);
    if Intact(db, o, row, rows) {
      IntactFrame(db, retired, o, row, rows);
      PartOwned(db, PartsOf(db.parts, u), o, row, rows);
      OrphansLast(retired, left, o, row, rows);
    } else {
      RetiredOrphans(retired, left, o, rows.Keys);
    }
  }

  lemma AssemblyLasts(db: Db, u: UploadId, v: ObjectId, manifest: seq<PartRef>, o: ObjectId, row: ObjectRow,
                      rows: Chunks)
    requires Intact(db, o, row, rows) && v != o
    ensures Lasts(CompleteMultipart(db, u, v, manifest), o, row, rows)
  {
    if AssemblyCommits(db, u, v, manifest) {
      var ps := CompleteParts(db.parts, u);
      var a, size, count := Assemble(db, u, v), DeclaredSize(db.parts, ps), DeclaredChunks(db.parts, ps);
      AssembleLasts(db, u, v, o, row, rows);
      ShowLasts(a, v, size, count, o, row, rows);
      DiscardLasts(Show(a, v, size, count), u, o, row, rows);
    }
  }

  lemma MultipartLasts(db: Db, s: MultipartStep, o: ObjectId, row: ObjectRow, rows: Chunks)
    requires Intact(db, o, row, rows) && !Mints(OnMultipart(s), o)
    ensures Lasts(ApplyMultipart(db, s), o, row, rows)
  {
    match s
    case DoCompleteMultipart(u, v, manifest) => AssemblyLasts(db, u, v, manifest, o, row, rows);
    case DoBeginPart(p, u, number) => BeginPartLasts(db, p, u, number, o, row, rows);
    case DoAbortMultipart(u) => AbortSessionLasts(db, u, o, row, rows);
    case DoCreateMultipart(u, k) => IntactFrame(db, CreateMultipart(db, u, k), o, row, rows);
    case DoCompletePart(p, size, count, etag) => IntactFrame(db, CompletePart(db, p, size, count, etag), o, row, rows);
    case DoPurgeUploads(us) => IntactFrame(db, PurgeUploads(db, us), o, row, rows);
  }

  lemma PurgeLasts(db: Db, cs: set<ChunkId>, os: set<ObjectId>, o: ObjectId, row: ObjectRow, rows: Chunks)
    requires Intact(db, o, row, rows)
    ensures Intact(PurgeReclaimed(db, cs, os), o, row, rows)
  {
    var first := DropChunks(db, PurgeableChunks(db, cs));
    Outside(db, o, row, rows);
    IntactChunks(db, first, o, row, rows);
    DropOthers(first, PurgeableObjects(first, os), o, row, rows);
  }

  lemma DropOthers(db: Db, gone: set<ObjectId>, o: ObjectId, row: ObjectRow, rows: Chunks)
    requires Intact(db, o, row, rows) && o !in gone
    ensures Intact(DropChunks(db, OwnedByObjects(db.chunks, gone)).(objects := db.objects - gone), o, row, rows)
  {
    var d := DropChunks(db, OwnedByObjects(db.chunks, gone)).(objects := db.objects - gone);
    Outside(db, o, row, rows);
    assert forall c | c in rows :: c in Owned(db.chunks, ObjectOwner(o));
    IntactChunks(db, d, o, row, rows);
  }

  lemma StepLasts(db: Db, s: Step, o: ObjectId, row: ObjectRow, rows: Chunks)
    requires Lasts(db, o, row, rows) && !Mints(s, o) && !Recommits(s, rows)
    ensures Lasts(Apply(db, s), o, row, rows)
  {
    if !Intact(db, o, row, rows) {
      RetiredStep(db, s, o, rows.Keys);
    } else {
      IntactStep(db, s, o, row, rows);
    }
  }

  lemma IntactStep(db: Db, s: Step, o: ObjectId, row: ObjectRow, rows: Chunks)
    requires Intact(db, o, row, rows) && !Mints(s, o) && !Recommits(s, rows)
    ensures Lasts(Apply(db, s), o, row, rows)
  {
    match s
    case OnUploads(u) => UploadLasts(db, u, o, row, rows);
    case OnMultipart(m) => MultipartLasts(db, m, o, row, rows);
    case OnGc(DoPurge(cs, os)) => PurgeLasts(db, cs, os, o, row, rows);
    case OnGc(g) =>
      GcFrame(db, g);
      IntactFrame(db, ApplyGc(db, g), o, row, rows);
    case OnReplicas(r) => IntactFrame(db, ApplyReplica(db, r), o, row, rows);
    case OnRepairs(j) => IntactFrame(db, ApplyRepair(db, j), o, row, rows);
    case Tick(_) => IntactFrame(db, Apply(db, s), o, row, rows);
  }

  /** The event neither gives the object's identifier away nor commits other bytes for one of its chunks. */
  predicate Respects(e: Event, o: ObjectId, rows: Chunks) {
    e.Store? ==> !Mints(e.s, o) && !Recommits(e.s, rows)
  }

  lemma ReactLasts(sys: System, e: Event, o: ObjectId, row: ObjectRow, rows: Chunks)
    requires Lasts(sys.db, o, row, rows) && Respects(e, o, rows)
    ensures Lasts(React(sys, e).db, o, row, rows)
  {
    if e.Store? && !Public(e.s) {
    } else {
      ReactIssues(sys, e);
      StepLasts(sys.db, Issued(sys, e), o, row, rows);
    }
  }

  /**
   Over every run in which no chunk of it is committed again, a COMPLETE object keeps its rows until it is
   retired.
   */
  lemma {:induction false} ObjectLasts(sys: System, events: seq<Event>, o: ObjectId, row: ObjectRow, rows: Chunks)
    requires Lasts(sys.db, o, row, rows) && forall e | e in events :: Respects(e, o, rows)
    ensures Lasts(Play(sys, events).db, o, row, rows)
    decreases |events|
  {
    if events != [] {
      var past := events[..|events| - 1];
      ObjectLasts(sys, past, o, row, rows);
      ReactLasts(Play(sys, past), events[|events| - 1], o, row, rows);
    }
  }

  // ----------------------------------------------------------- after the upload

  /** Nothing in the system has heard of these identifiers. */
  ghost predicate Unheard(sys: System, ws: seq<ChunkWrite>) {
    forall i | 0 <= i < |ws| ::
      && (forall n: NodeId :: Loc(ws[i].id, n) !in sys.db.deletions)
      && (forall w | w in sys.repairs :: sys.repairs[w].job.chunk != ws[i].id)
  }

  /** Everything the results about runs start from. */
  ghost predicate Sound(sys: System) {
    Inv(sys.db) && LeaseInv(sys) && Durability.LostCovers(sys)
  }

  lemma StoreSound(sys: System, s: Step, d: Db)
    requires Sound(sys) && Public(s) && DeclaredDead(s) == {} && d == Apply(sys.db, s)
    ensures Sound(sys.(db := d))
  {
    var next := React(sys, Store(s));
    assert sys.lost + {} == sys.lost;
    assert next == sys.(db := d);
    ReactInv(sys, Store(s));
    ReactLeases(sys, Store(s));
    Durability.ReactCovers(sys, Store(s));
  }

  lemma WriteSound(sys: System, before: Db, o: ObjectId, i: nat, w: ChunkWrite, min: nat, d: Db)
    requires Sound(sys.(db := before)) && d == WriteOne(before, o, i, w, min)
    ensures Sound(sys.(db := d))
  {
    var reserved := ReserveChunk(before, w.id, ObjectOwner(o), i, w.size);
    StoreSound(sys.(db := before), OnUploads(DoReserve(w.id, ObjectOwner(o), i, w.size)), reserved);
    var recorded := RecordTargets(reserved, w.id, w.ok + w.bad);
    StoreSound(sys.(db := reserved), OnReplicas(DoRecordTargets(w.id, w.ok + w.bad)), recorded);
    StoreSound(sys.(db := recorded), OnUploads(DoCommit(w.id, w.sum, w.size, w.ok, w.bad, min)), d);
  }

  lemma {:induction false} WritesSound(sys: System, begun: Db, o: ObjectId, ws: seq<ChunkWrite>, min: nat)
      returns (d: Db)
    requires Sound(sys.(db := begun))
    ensures d == WriteAll(begun, o, ws, min) && Sound(sys.(db := d))
    decreases |ws|
  {
    if ws == [] {
      d := begun;
    } else {
      var before := WritesSound(sys, begun, o, ws[..|ws| - 1], min);
      d := WriteOne(before, o, |ws| - 1, ws[|ws| - 1], min);
      WriteSound(sys, before, o, |ws| - 1, ws[|ws| - 1], min, d);
    }
  }

  lemma CompleteSound(sys: System, written: Db, o: ObjectId, size: nat, count: nat)
    requires Sound(sys.(db := written))
    ensures Sound(sys.(db := CompleteUpload(written, o, size, count)))
  {
    var d := CompleteUpload(written, o, size, count);
    StoreSound(sys.(db := written), OnUploads(DoCompleteUpload(o, size, count)), d);
  }

  lemma UploadSound(sys: System, o: ObjectId, k: Key, ws: seq<ChunkWrite>, size: nat, min: nat)
    requires Sound(sys)
    ensures Sound(sys.(db := UploadAll(sys.db, o, k, ws, size, min)))
  {
    var begun := BeginUpload(sys.db, o, k);
    StoreSound(sys, OnUploads(DoBeginUpload(o, k)), begun);
    var written := WritesSound(sys, begun, o, ws, min);
    CompleteSound(sys, written, o, size, |ws|);
  }

  lemma {:induction false} WritesQueueNothing(db: Db, o: ObjectId, ws: seq<ChunkWrite>, min: nat)
    ensures WriteAll(db, o, ws, min).deletions == db.deletions
    decreases |ws|
  {
    if ws != [] {
      WritesQueueNothing(db, o, ws[..|ws| - 1], min);
      WriteQueuesNothing(WriteAll(db, o, ws[..|ws| - 1], min), o, |ws| - 1, ws[|ws| - 1], min);
    }
  }

  lemma WriteQueuesNothing(db: Db, o: ObjectId, i: nat, w: ChunkWrite, min: nat)
    ensures WriteOne(db, o, i, w, min).deletions == db.deletions
  {
    var reserved := ReserveChunk(db, w.id, ObjectOwner(o), i, w.size);
    ReserveQueuesNothing(db, w.id, ObjectOwner(o), i, w.size);
    TargetsQueueNothing(reserved, w.id, w.ok + w.bad);
    CommitQueuesNothing(RecordTargets(reserved, w.id, w.ok + w.bad), w, min);
  }

  lemma ReserveQueuesNothing(db: Db, id: ChunkId, owner: Owner, i: nat, size: nat)
    ensures ReserveChunk(db, id, owner, i, size).deletions == db.deletions
  {
  }

  lemma TargetsQueueNothing(db: Db, c: ChunkId, ns: set<NodeId>)
    ensures RecordTargets(db, c, ns).deletions == db.deletions
  {
  }

  lemma CommitQueuesNothing(db: Db, w: ChunkWrite, min: nat)
    ensures CommitChunk(db, w.id, w.sum, w.size, w.ok, w.bad, min).deletions == db.deletions
  {
  }

  /** Publishing queues deletions for the version it replaces only. */
  lemma CompleteQueues(db: Db, o: ObjectId, size: nat, count: nat, c: ChunkId, n: NodeId)
    requires c in Owned(db.chunks, ObjectOwner(o)) && Loc(c, n) !in db.deletions
    ensures Loc(c, n) !in CompleteUpload(db, o, size, count).deletions
  {
  }

  lemma UploadQueues(db: Db, o: ObjectId, k: Key, ws: seq<ChunkWrite>, size: nat, min: nat, i: nat, n: NodeId)
    requires Inv(db) && o !in db.objects && WellWritten(db, ws, min) && i < |ws| && Loc(ws[i].id, n) !in db.deletions
    ensures Loc(ws[i].id, n) !in UploadAll(db, o, k, ws, size, min).deletions
  {
    var begun := BeginUpload(db, o, k);
    var written := WriteAll(begun, o, ws, min);
    BegunWritten(db, o, k);
    AllWritten(db, begun, o, k, ws, min);
    WritesQueueNothing(begun, o, ws, min);
    assert ws[i].id in Ids(ws);
    CompleteQueues(written, o, size, |ws|, ws[i].id, n);
  }

  /** A freshly uploaded chunk is safe. */
  lemma UploadedSafe(sys: System, o: ObjectId, k: Key, ws: seq<ChunkWrite>, size: nat, min: nat, i: nat)
    requires Inv(sys.db) && o !in sys.db.objects && WellWritten(sys.db, ws, min) && Unheard(sys, ws) && i < |ws|
    ensures Durability.Safe(sys.(db := UploadAll(sys.db, o, k, ws, size, min)), ws[i].id, min)
  {
    var next := sys.(db := UploadAll(sys.db, o, k, ws, size, min));
    UploadSucceeds(sys.db, o, k, ws, size, min);
    assert Stored(next.db, o, i, ws[i]);
    forall n: NodeId ensures Loc(ws[i].id, n) !in next.db.deletions {
      UploadQueues(sys.db, o, k, ws, size, min, i, n);
    }
    Durability.FullSafe(next, ws[i].id, min);
  }

  // ------------------------------------------------------- put, any calm run, get

  ghost function RowsOf(ws: seq<ChunkWrite>, d: Db): Chunks {
    map c | c in d.chunks && c in Ids(ws) :: d.chunks[c]
  }

  lemma FinishedIsIntact(d: Db, o: ObjectId, k: Key, ws: seq<ChunkWrite>, size: nat)
    requires Finished(d, o, k, ws, size)
    ensures Intact(d, o, ObjectRow(k, Complete, size, |ws|), RowsOf(ws, d))
  {
    assert o in CompleteVersions(d.objects, k);
    forall c | c in Ids(ws) ensures c in d.chunks && d.chunks[c].state == Committed {
      var i :| 0 <= i < |ws| && ws[i].id == c;
      assert Stored(d, o, i, ws[i]);
    }
  }

  lemma IntactIsLaid(d: Db, later: Db, o: ObjectId, k: Key, ws: seq<ChunkWrite>, size: nat)
    requires Finished(d, o, k, ws, size) && Intact(later, o, ObjectRow(k, Complete, size, |ws|), RowsOf(ws, d))
    ensures Laid(later.chunks, o, ws)
  {
    forall i | 0 <= i < |ws| ensures Listed(later.chunks, o, i, ws[i]) {
      assert Stored(d, o, i, ws[i]) && ws[i].id in Ids(ws);
      assert ws[i].id in RowsOf(ws, d);
    }
    FinishedIsIntact(d, o, k, ws, size);
  }

  /**
   The run between the put and the get: the object is neither deleted nor replaced, nothing rewrites its chunks,
   they are left in peace, and fewer than `min` nodes are declared DEAD, then or before.
   */
  ghost predicate Endured(start: System, events: seq<Event>, o: ObjectId, k: Key, ws: seq<ChunkWrite>, min: nat) {
    && (forall e | e in events :: Respects(e, o, RowsOf(ws, start.db)))
    && (forall i | 0 <= i < |ws| :: Durability.CalmRun(start, events, ws[i].id, min))
    && o in CompleteVersions(Play(start, events).db.objects, k) && |Play(start, events).lost| < min
  }

  lemma StillLaid(start: System, events: seq<Event>, o: ObjectId, k: Key, ws: seq<ChunkWrite>, size: nat, min: nat)
    requires Finished(start.db, o, k, ws, size) && Endured(start, events, o, k, ws, min)
    ensures var later := Play(start, events).db;
      Laid(later.chunks, o, ws) && later.objects[o] == ObjectRow(k, Complete, size, |ws|)
  {
    var row, rows := ObjectRow(k, Complete, size, |ws|), RowsOf(ws, start.db);
    FinishedIsIntact(start.db, o, k, ws, size);
    ObjectLasts(start, events, o, row, rows);
    IntactIsLaid(start.db, Play(start, events).db, o, k, ws, size);
  }

  /** Every chunk still has a copy on a node that never died. */
  lemma StillHeld(start: System, events: seq<Event>, o: ObjectId, k: Key, ws: seq<ChunkWrite>, min: nat, i: nat)
    requires Sound(start) && Endured(start, events, o, k, ws, min) && i < |ws|
    requires Durability.Safe(start, ws[i].id, min) && Laid(Play(start, events).db.chunks, o, ws)
    ensures exists n :: n !in Play(start, events).lost && Readable(Play(start, events).db, Loc(ws[i].id, n))
  {
    var end := Play(start, events);
    PlayInv(start, events);
    Durability.PlayCovers(start, events);
    Durability.PlaySafe(start, events, ws[i].id, min);
    assert Listed(end.db.chunks, o, i, ws[i]);
    assert Effects.Standing(end.db, ws[i].id);
    Durability.SurvivorReadable(end, ws[i].id);
  }

  /** Nodes that never died serve what they hold; the others may answer anything at all. */
  ghost predicate Faithful(end: System, serve: (ChunkId, NodeId) -> Answer, ws: seq<ChunkWrite>, parts: seq<Bytes>)
    requires |ws| == |parts|
  {
    forall i, n: NodeId | 0 <= i < |ws| && n !in end.lost && Readable(end.db, Loc(ws[i].id, n)) ::
      Serves(end.db, serve, ws[i].id, n, parts[i])
  }

  lemma StillReachable(start: System, events: seq<Event>, o: ObjectId, k: Key, ws: seq<ChunkWrite>, min: nat,
                       serve: (ChunkId, NodeId) -> Answer, parts: seq<Bytes>)
    requires Sound(start) && Endured(start, events, o, k, ws, min) && Laid(Play(start, events).db.chunks, o, ws)
    requires forall i | 0 <= i < |ws| :: Durability.Safe(start, ws[i].id, min)
    requires |ws| == |parts| && Faithful(Play(start, events), serve, ws, parts)
    ensures Multipart.Positioned(Play(start, events).db.chunks) && Reachable(Play(start, events).db, o, serve, parts)
  {
    var end := Play(start, events);
    PlayInv(start, events);
    Multipart.CatalogOrdered(end.db, 0);
    UploadOrder(end.db.chunks, o, ws);
    var l := Multipart.InOrder(end.db.chunks, ObjectOwner(o));
    forall i | 0 <= i < |l| ensures SomeoneServes(end.db, serve, l[i], parts[i]) {
      StillHeld(start, events, o, k, ws, min, i);
      var n :| n !in end.lost && Readable(end.db, Loc(ws[i].id, n));
      assert Serves(end.db, serve, ws[i].id, n, parts[i]);
    }
  }

  /** What the caller of a put supplies, and what the system has not heard of. */
  ghost predicate Suppliable(sys: System, hash: Bytes -> string, o: ObjectId, ids: nat -> ChunkId,
                             acked: nat -> seq<NodeId>,
                             bad: nat -> set<NodeId>, min: nat, parts: seq<Bytes>) {
    && Sound(sys) && o !in sys.db.objects && Supplied(sys.db, hash, ids, acked, bad, min)
    && Unheard(sys, WritesFor(hash, parts, ids, acked, bad))
  }

  lemma AfterPut(sys: System, start: System, hash: Bytes -> string, o: ObjectId, k: Key, ids: nat -> ChunkId,
                 acked: nat -> seq<NodeId>, bad: nat -> set<NodeId>, min: nat, parts: seq<Bytes>, size: nat)
    requires Suppliable(sys, hash, o, ids, acked, bad, min, parts)
    requires start == sys.(db := UploadAll(sys.db, o, k, WritesFor(hash, parts, ids, acked, bad), size, min))
    ensures var ws := WritesFor(hash, parts, ids, acked, bad);
      && Sound(start) && Finished(start.db, o, k, ws, size)
      && forall i | 0 <= i < |ws| :: Durability.Safe(start, ws[i].id, min)
  {
    var ws := WritesFor(hash, parts, ids, acked, bad);
    SuppliedWell(sys.db, hash, parts, ids, acked, bad, min);
    UploadSound(sys, o, k, ws, size, min);
    UploadSucceeds(sys.db, o, k, ws, size, min);
    forall i | 0 <= i < |ws| ensures Durability.Safe(start, ws[i].id, min) {
      UploadedSafe(sys, o, k, ws, size, min, i);
    }
  }

  /** What the put left, and what the run that followed did to it. */
  ghost predicate Prepared(hash: Bytes -> string, start: System, events: seq<Event>, o: ObjectId, k: Key,
                           ws: seq<ChunkWrite>,
                           size: nat, min: nat, serve: (ChunkId, NodeId) -> Answer, parts: seq<Bytes>) {
    && Sound(start) && Finished(start.db, o, k, ws, size) && Endured(start, events, o, k, ws, min)
    && (forall i | 0 <= i < |ws| :: Durability.Safe(start, ws[i].id, min))
    && |ws| == |parts| && Faithful(Play(start, events), serve, ws, parts)
    && forall i | 0 <= i < |ws| :: ws[i].size == |parts[i]| && ws[i].sum == hash(parts[i])
  }

  lemma PutPrepares(sys: System, start: System, hash: Bytes -> string, o: ObjectId, k: Key, ids: nat -> ChunkId,
                    acked: nat -> seq<NodeId>, bad: nat -> set<NodeId>, min: nat, parts: seq<Bytes>, size: nat,
                    events: seq<Event>, serve: (ChunkId, NodeId) -> Answer, ws: seq<ChunkWrite>)
    requires Suppliable(sys, hash, o, ids, acked, bad, min, parts) && ws == WritesFor(hash, parts, ids, acked, bad)
    requires start == sys.(db := UploadAll(sys.db, o, k, ws, size, min))
    requires Endured(start, events, o, k, ws, min) && Faithful(Play(start, events), serve, ws, parts)
    ensures Prepared(hash, start, events, o, k, ws, size, min, serve, parts)
  {
    AfterPut(sys, start, hash, o, k, ids, acked, bad, min, parts, size);
  }

  /**
   Put, then anything, then get: from any sound system an uploaded stream comes back byte for byte, and any range of it
   as exactly those bytes, after every run that leaves the object visible and its chunks in peace and in which fewer
   than `min` nodes are declared DEAD, whatever workers, scans, trims, rejoins and collections do meanwhile. `world`
   is what that run makes of the tables.
   */
  method PutRunGet(db: Db, hash: Bytes -> string, stream: Bytes, cuts: seq<nat>, eager: bool, size: nat, maxTotal: int,
                   o: ObjectId, k: Key, ids: nat -> ChunkId, acked: nat -> seq<NodeId>, bad: nat -> set<NodeId>,
                   min: nat,
                   query: (Db, Owner) -> seq<Layout.Row>, serve: (ChunkId, NodeId) -> Answer, header: string,
                   world: Db -> Db, ghost sys: System, ghost start: System, ghost events: seq<Event>,
                   ghost parts: seq<Bytes>, ghost ws: seq<ChunkWrite>) returns (r: Response)
    requires size > 0 && !Splitting.OverSize(maxTotal, |stream|) && parts == Splitting.Chunks(stream, size)
    requires Distinctive(hash, parts) && forall d: Db, owner: Owner :: Answers(query, d, owner)
    requires Suppliable(sys, hash, o, ids, acked, bad, min, parts) && ws == WritesFor(hash, parts, ids, acked, bad)
    requires db == sys.db && start == sys.(db := UploadAll(sys.db, o, k, ws, |stream|, min))
    requires world(start.db) == Play(start, events).db
    requires Endured(start, events, o, k, ws, min) && Faithful(Play(start, events), serve, ws, parts)
    ensures r.ok && (r.status as int, r.body) == Answered(header, stream)
    ensures r.status != 416 ==> r.contentLength == |r.body|
  {
    PutPrepares(sys, start, hash, o, k, ids, acked, bad, min, parts, |stream|, events, serve, ws);
    var d := Put(db, hash, stream, cuts, eager, size, maxTotal, o, k, ids, acked, bad, min);
    assert d == start.db;
    r := GetLater(world(d), hash, stream, size, o, k, min, query, serve, header, start, events, ws);
  }

  /** The get, from what the put left and the run made of it. */
  method GetLater(later: Db, hash: Bytes -> string, stream: Bytes, size: nat, ghost o: ObjectId, k: Key, ghost min: nat,
                  query: (Db, Owner) -> seq<Layout.Row>, serve: (ChunkId, NodeId) -> Answer, header: string,
                  ghost start: System, ghost events: seq<Event>, ghost ws: seq<ChunkWrite>) returns (r: Response)
    requires size > 0 && Distinctive(hash, Splitting.Chunks(stream, size)) && later == Play(start, events).db
    requires forall d: Db, owner: Owner :: Answers(query, d, owner)
    requires Prepared(hash, start, events, o, k, ws, |stream|, min, serve, Splitting.Chunks(stream, size))
    ensures r.ok && (r.status as int, r.body) == Answered(header, stream)
    ensures r.status != 416 ==> r.contentLength == |r.body|
  {
    ghost var parts := Splitting.Chunks(stream, size);
    EndsReady(start, events, o, k, ws, |stream|, min, hash, serve, parts, later);
    Splitting.ChunksJoin(stream, size);
    var f := Get(later, hash, k, header, query, serve, parts);
    r := f.response;
  }

  /** The tables record the object under its key, and every chunk of it can be fetched. */
  ghost predicate Ready(d: Db, hash: Bytes -> string, o: ObjectId, k: Key, size: nat,
                        serve: (ChunkId, NodeId) -> Answer, parts: seq<Bytes>) {
    && Inv(d) && Multipart.Positioned(d.chunks) && CompleteVersions(d.objects, k) == {o}
    && o in d.objects && d.objects[o].size == size
    && Recorded(hash, d, o, parts) && Reachable(d, o, serve, parts)
  }

  lemma EndsReady(start: System, events: seq<Event>, o: ObjectId, k: Key, ws: seq<ChunkWrite>, size: nat, min: nat,
                  hash: Bytes -> string, serve: (ChunkId, NodeId) -> Answer, parts: seq<Bytes>, later: Db)
    requires later == Play(start, events).db
    requires Sound(start) && Finished(start.db, o, k, ws, size) && Endured(start, events, o, k, ws, min)
    requires forall i | 0 <= i < |ws| :: Durability.Safe(start, ws[i].id, min)
    requires |ws| == |parts| && Faithful(Play(start, events), serve, ws, parts)
    requires forall i | 0 <= i < |ws| :: ws[i].size == |parts[i]| && ws[i].sum == hash(parts[i])
    ensures Ready(later, hash, o, k, size, serve, parts)
  {
    PlayInv(start, events);
    StillLaid(start, events, o, k, ws, size, min);
    StillReachable(start, events, o, k, ws, min, serve, parts);
    UploadRecorded(hash, later, o, ws, parts);
    Layout.OneCurrent(later, k, o);
  }
}
