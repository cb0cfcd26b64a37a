/** The catalogue's share of the refinement: chunks, objects, sessions, parts, nodes and repair jobs. */
module RefinedCatalog {
  import opened Tables
  import opened Transactions
  import opened Reference
  import opened Refinement
  import Orders

  // -------------------------------------------------------------------- chunk rows

  lemma OrphanedChunk(db: Db, cs: set<ChunkId>, c: ChunkId)
    ensures At(OrphanChunks(db, cs).chunks, c) ==
      if c in db.chunks && c in cs then Is(db.chunks[c].(state := Orphaned)) else At(db.chunks, c)
  {
  }

  lemma ReservedChunk(db: Db, id: ChunkId, owner: Owner, index: nat, size: nat, c: ChunkId)
    ensures At(ReserveChunk(db, id, owner, index, size).chunks, c) ==
      ChunkCell(db, OnUploads(DoReserve(id, owner, index, size)), c)
  {
    OpenMeans(db, owner);
    NotEnding(db, OnUploads(DoReserve(id, owner, index, size)), c);
    var taken := AtPosition(db.chunks, owner, index);
    assert forall x :: x in taken <==> Holds(db, x, owner, index);
    if taken == {} {
      assert forall x :: !Holds(db, x, owner, index);
    } else {
      var x :| x in taken;
      assert Holds(db, x, owner, index);
      ReusedChunk(db, owner, index, size, c);
    }
  }

  lemma ReusedChunk(db: Db, owner: Owner, index: nat, size: nat, c: ChunkId)
    ensures At(ReuseChunks(db, AtPosition(db.chunks, owner, index), size).chunks, c) ==
      if Holds(db, c, owner, index) then Is(ChunkRow(owner, index, size, db.chunks[c].checksum, Pending))
      else At(db.chunks, c)
  {
  }

  /** Steps that are no end of anything orphan and purge nothing. */
  lemma NotEnding(db: Db, s: Step, c: ChunkId)
    requires s.OnUploads? && (s.u.DoReserve? || s.u.DoCommit? || s.u.DoBeginUpload?)
    ensures !Orphans(db, s, c) && !Purges(db, s, c)
  {
  }

  lemma CommitFrame(db: Db, k: ChunkId, sum: string, size: nat, ok: set<NodeId>, bad: set<NodeId>, min: nat)
    ensures var d := CommitChunk(db, k, sum, size, ok, bad, min);
      && d.objects == db.objects
      && d.chunks ==
         if Commits(db, k, sum, ok, bad, min)
         then db.chunks[k := ChunkRow(db.chunks[k].owner, db.chunks[k].index, size, sum, Committed)] else db.chunks
  {
    CommitMeans(db, k, sum, ok, bad, min);
  }

  lemma CommittedChunk(db: Db, d: Db, k: ChunkId, sum: string, size: nat, ok: set<NodeId>, bad: set<NodeId>, min: nat,
                       c: ChunkId)
    requires d.chunks ==
      if Commits(db, k, sum, ok, bad, min)
      then db.chunks[k := ChunkRow(db.chunks[k].owner, db.chunks[k].index, size, sum, Committed)] else db.chunks
    ensures At(d.chunks, c) == ChunkCell(db, OnUploads(DoCommit(k, sum, size, ok, bad, min)), c)
  {
    NotEnding(db, OnUploads(DoCommit(k, sum, size, ok, bad, min)), c);
  }

  lemma AbortedChunk(db: Db, os: set<ObjectId>, c: ChunkId)
    ensures At(AbortUploads(db, os).chunks, c) == ChunkCell(db, OnUploads(DoAbortUploads(os)), c)
  {
    var hit := InFlight(db, os);
    var cs := OwnedByObjects(db.chunks, hit);
    AbortRetires(db, os, c);
    OrphanedChunk(SetObjectStates(db, hit, Failed), cs, c);
  }

  lemma UploadChunks(db: Db, s: UploadStep, c: ChunkId)
    ensures At(ApplyUpload(db, s).chunks, c) == ChunkCell(db, OnUploads(s), c)
  {
    match s
    case DoReserve(id, owner, index, size) => ReservedChunk(db, id, owner, index, size, c);
    case DoCommit(k, sum, size, ok, bad, min) =>
      CommitFrame(db, k, sum, size, ok, bad, min);
      CommittedChunk(db, CommitChunk(db, k, sum, size, ok, bad, min), k, sum, size, ok, bad, min, c);
    case DoAbortUploads(os) => AbortedChunk(db, os, c);
    case DoBeginUpload(o, k) =>
    case DoCompleteUpload(o, size, count) => ShowKeepsChunks(db, o, size, count);
    case DoDeleteObject(k) => assert DeleteObject(db, k).chunks == db.chunks;
  }

  lemma ShowKeepsChunks(db: Db, o: ObjectId, size: nat, count: nat)
    ensures CompleteUpload(db, o, size, count).chunks == db.chunks
  {
  }

  lemma FailedPartsChunk(db: Db, ps: set<PartId>, c: ChunkId)
    ensures At(FailParts(db, ps).chunks, c) ==
      if c in OwnedByParts(db.chunks, ps) then Is(db.chunks[c].(state := Orphaned)) else At(db.chunks, c)
  {
    OrphanedChunk(SetPartsFailed(db, ps), OwnedByParts(db.chunks, ps), c);
  }

  lemma BegunChunk(db: Db, p: PartId, u: UploadId, number: nat, c: ChunkId)
    ensures At(BeginPart(db, p, u, number).chunks, c) == ChunkCell(db, OnMultipart(DoBeginPart(p, u, number)), c)
  {
    if Begins(db, p, u, number) {
      BeginRetires(db, p, u, number, c);
      FailedPartsChunk(db, PriorAttempts(db.parts, u, number), c);
    }
  }

  lemma AbandonedChunk(db: Db, u: UploadId, c: ChunkId)
    ensures At(AbortMultipart(db, u).chunks, c) == ChunkCell(db, OnMultipart(DoAbortMultipart(u)), c)
  {
    if Aborts(db, u) {
      AbortSessionRetires(db, u, c);
      FailedPartsChunk(db.(uploads := db.uploads[u := db.uploads[u].(state := Aborted)]), PartsOf(db.parts, u), c);
    }
  }

  /** A chunk's new index is the number of taken chunks that come before it. */
  lemma PlaceMeans(db: Db, u: UploadId, o: ObjectId, manifest: seq<PartRef>, c: ChunkId)
    requires Assembles(db, u, o, manifest) && c in Moved(db.parts, db.chunks, u)
    ensures NewIndex(db.parts, db.chunks, u, c) == Place(db, OnMultipart(DoCompleteMultipart(u, o, manifest)), c)
  {
    var s, moved := OnMultipart(DoCompleteMultipart(u, o, manifest)), Moved(db.parts, db.chunks, u);
    var less := ByPartThenIndex(db.parts, db.chunks);
    forall x
      ensures x in Orders.Before(less, moved, c) <==> x in db.chunks && Takes(db, s, x) && ComesBefore(db, x, c)
    {
      MovedMeans(db, u, o, manifest, x);
      if x in moved {
        OrderMeans(db, x, c);
      }
    }
    assert Orders.Before(less, moved, c) == set x | x in db.chunks && Takes(db, s, x) && ComesBefore(db, x, c);
  }

  lemma OrderMeans(db: Db, x: ChunkId, c: ChunkId)
    requires x in db.chunks && db.chunks[x].owner.PartOwner? && db.chunks[x].owner.pid in db.parts
    requires c in db.chunks && db.chunks[c].owner.PartOwner? && db.chunks[c].owner.pid in db.parts
    ensures ByPartThenIndex(db.parts, db.chunks)(x, c) <==> ComesBefore(db, x, c)
  {
    assert PartNumberOf(db.parts, db.chunks, x) == db.parts[db.chunks[x].owner.pid].number;
    assert PartNumberOf(db.parts, db.chunks, c) == db.parts[db.chunks[c].owner.pid].number;
  }

  lemma AssembledChunk(db: Db, u: UploadId, o: ObjectId, manifest: seq<PartRef>, c: ChunkId)
    requires Assembles(db, u, o, manifest)
    ensures var s := OnMultipart(DoCompleteMultipart(u, o, manifest));
      At(Assemble(db, u, o).chunks, c) ==
        if Takes(db, s, c) then Is(db.chunks[c].(owner := ObjectOwner(o), index := Place(db, s, c)))
        else At(db.chunks, c)
  {
    MovedMeans(db, u, o, manifest, c);
    if c in Moved(db.parts, db.chunks, u) {
      PlaceMeans(db, u, o, manifest, c);
    }
  }

  lemma LeftoverChunk(a: Db, o: ObjectId, size: nat, count: nat, u: UploadId, c: ChunkId)
    requires o in a.objects
    ensures At(DiscardLeftovers(Show(a, o, size, count), u).chunks, c) ==
      if c in OwnedByParts(a.chunks, PartsOf(a.parts, u)) then Is(a.chunks[c].(state := Orphaned)) else At(a.chunks, c)
  {
    var shown := Show(a, o, size, count);
    var left := OwnedByParts(shown.chunks, PartsOf(shown.parts, u));
    assert shown.chunks == a.chunks && shown.parts == a.parts;
    OrphanedChunk(RetireChunks(shown, left), left, c);
  }

  lemma AssemblyCell(db: Db, u: UploadId, o: ObjectId, manifest: seq<PartRef>, c: ChunkId)
    requires Assembles(db, u, o, manifest)
    ensures var s := OnMultipart(DoCompleteMultipart(u, o, manifest));
      ChunkCell(db, s, c) ==
        if LeavesBehind(db, s, c) then Is(db.chunks[c].(state := Orphaned))
        else if Takes(db, s, c) then Is(db.chunks[c].(owner := ObjectOwner(o), index := Place(db, s, c)))
        else At(db.chunks, c)
  {
    AssemblyRetires(db, u, o, manifest, c);
  }

  lemma AssemblyChunk(db: Db, u: UploadId, o: ObjectId, manifest: seq<PartRef>, c: ChunkId)
    ensures At(CompleteMultipart(db, u, o, manifest).chunks, c) ==
      ChunkCell(db, OnMultipart(DoCompleteMultipart(u, o, manifest)), c)
  {
    AssemblyMeans(db, u, o, manifest);
    if Assembles(db, u, o, manifest) {
      var ps := CompleteParts(db.parts, u);
      AssembledChunk(db, u, o, manifest, c);
      AssembledGroups(db, u, o, manifest, c);
      AssemblyCell(db, u, o, manifest, c);
      LeftoverChunk(Assemble(db, u, o), o, DeclaredSize(db.parts, ps), DeclaredChunks(db.parts, ps), u, c);
    }
  }

  lemma MultipartChunks(db: Db, s: MultipartStep, c: ChunkId)
    ensures At(ApplyMultipart(db, s).chunks, c) == ChunkCell(db, OnMultipart(s), c)
  {
    match s
    case DoBeginPart(p, u, number) => BegunChunk(db, p, u, number, c);
    case DoAbortMultipart(u) => AbandonedChunk(db, u, c);
    case DoCompleteMultipart(u, o, manifest) => AssemblyChunk(db, u, o, manifest, c);
    case DoCreateMultipart(_, _) =>
    case DoCompletePart(_, _, _, _) =>
    case DoPurgeUploads(_) =>
  }

  lemma ClearMeans(db: Db, c: ChunkId)
    ensures Reclaimed(db, c) <==> Clear(db, c)
  {
    assert forall l: Loc | l.chunk == c :: l == Loc(c, l.node);
  }

  /** Chunks dropped first count as cleared, so the two statements of a purge see the same objects. */
  lemma PurgedObjects(db: Db, cs: set<ChunkId>, os: set<ObjectId>, o: ObjectId)
    ensures var first := DropChunks(db, PurgeableChunks(db, cs));
      o in PurgeableObjects(first, os) <==> PurgesObject(db, OnGc(DoPurge(cs, os)), o)
  {
    var first := DropChunks(db, PurgeableChunks(db, cs));
    forall c: ChunkId ensures Reclaimed(first, c) <==> Clear(db, c) {
      ClearMeans(db, c);
      ClearMeans(first, c);
    }
    forall c | c in db.chunks
      ensures c in first.chunks <==> !(c in cs && db.chunks[c].state == Orphaned && Clear(db, c))
    {
      ClearMeans(db, c);
    }
  }

  lemma PurgedChunk(db: Db, cs: set<ChunkId>, os: set<ObjectId>, c: ChunkId)
    ensures c in PurgeReclaimed(db, cs, os).chunks <==> c in db.chunks && !Purges(db, OnGc(DoPurge(cs, os)), c)
    ensures c in PurgeReclaimed(db, cs, os).chunks ==> PurgeReclaimed(db, cs, os).chunks[c] == db.chunks[c]
  {
    var first := DropChunks(db, PurgeableChunks(db, cs));
    ClearMeans(db, c);
    if c in db.chunks && db.chunks[c].owner.ObjectOwner? {
      PurgedObjects(db, cs, os, db.chunks[c].owner.oid);
    }
    assert c in first.chunks ==> first.chunks[c] == db.chunks[c];
  }

  lemma Chunks(db: Db, s: Step, c: ChunkId)
    ensures At(Apply(db, s).chunks, c) == ChunkCell(db, s, c)
  {
    match s
    case OnUploads(u) => UploadChunks(db, u, c);
    case OnMultipart(m) => MultipartChunks(db, m, c);
    case OnGc(DoPurge(cs, os)) => PurgedChunk(db, cs, os, c);
    case OnGc(g) => KeepsChunks(db, g);
    case OnReplicas(r) =>
    case OnRepairs(j) =>
    case Tick(_) =>
  }

  lemma KeepsChunks(db: Db, g: GcStep)
    requires !g.DoPurge?
    ensures ApplyGc(db, g).chunks == db.chunks && ApplyGc(db, g).objects == db.objects
    ensures ApplyGc(db, g).uploads == db.uploads && ApplyGc(db, g).parts == db.parts
    ensures ApplyGc(db, g).nodes == db.nodes && ApplyGc(db, g).jobs == db.jobs
  {
  }

  // ----------------------------------------------------------------------- objects

  lemma StateOf(db: Db, os: set<ObjectId>, st: ObjectState, o: ObjectId)
    ensures At(SetObjectStates(db, os, st).objects, o) ==
      if o in db.objects && o in os then Is(db.objects[o].(state := st)) else At(db.objects, o)
  {
  }

  lemma ShownObject(db: Db, v: ObjectId, size: nat, count: nat, o: ObjectId)
    requires v in db.objects
    ensures At(Show(db, v, size, count).objects, o) ==
      if o == v then Is(ObjectRow(db.objects[v].key, Complete, size, count))
      else if Shown(db, o, db.objects[v].key) then Is(db.objects[o].(state := Retiring))
      else At(db.objects, o)
  {
    var prior := CompleteVersions(db.objects, db.objects[v].key) - {v};
    StateOf(db, prior, Retiring, o);
  }

  lemma CompletedObject(db: Db, v: ObjectId, size: nat, count: nat, o: ObjectId)
    ensures At(CompleteUpload(db, v, size, count).objects, o) ==
      ObjectCell(db, OnUploads(DoCompleteUpload(v, size, count)), o)
  {
    CompleteMeans(db, v, count);
    if Completes(db, v, count) {
      ShownObject(db, v, size, count, o);
    }
  }

  lemma AbortedObject(db: Db, os: set<ObjectId>, o: ObjectId)
    ensures At(AbortUploads(db, os).objects, o) == ObjectCell(db, OnUploads(DoAbortUploads(os)), o)
  {
    StateOf(db, InFlight(db, os), Failed, o);
  }

  lemma DeletedObject(db: Db, k: Key, o: ObjectId)
    ensures At(DeleteObject(db, k).objects, o) == ObjectCell(db, OnUploads(DoDeleteObject(k)), o)
  {
    StateOf(db, CompleteVersions(db.objects, k), Retiring, o);
  }

  lemma ReserveFrame(db: Db, id: ChunkId, owner: Owner, index: nat, size: nat)
    ensures ReserveChunk(db, id, owner, index, size).objects == db.objects
  {
  }

  lemma BegunObject(db: Db, v: ObjectId, k: Key, o: ObjectId)
    ensures At(BeginUpload(db, v, k).objects, o) == ObjectCell(db, OnUploads(DoBeginUpload(v, k)), o)
  {
  }

  lemma UploadObjects(db: Db, s: UploadStep, o: ObjectId)
    ensures At(ApplyUpload(db, s).objects, o) == ObjectCell(db, OnUploads(s), o)
  {
    match s
    case DoReserve(id, owner, index, size) => ReserveFrame(db, id, owner, index, size);
    case DoCommit(c, sum, size, ok, bad, min) => CommitFrame(db, c, sum, size, ok, bad, min);
    case DoBeginUpload(v, k) => BegunObject(db, v, k, o);
    case DoCompleteUpload(v, size, count) => CompletedObject(db, v, size, count, o);
    case DoAbortUploads(os) => AbortedObject(db, os, o);
    case DoDeleteObject(k) => DeletedObject(db, k, o);
  }

  lemma LeftoverObjects(a: Db, u: UploadId)
    ensures DiscardLeftovers(a, u).objects == a.objects
  {
  }

  lemma AssembledRow(db: Db, u: UploadId, v: ObjectId, manifest: seq<PartRef>, o: ObjectId)
    requires Assembles(db, u, v, manifest)
    ensures var s := OnMultipart(DoCompleteMultipart(u, v, manifest));
      ObjectCell(db, s, o) ==
        if EndsObject(db, s, o) then Is(db.objects[o].(state := Retiring))
        else if o == v
        then Is(ObjectRow(db.uploads[u].key, Complete, Total(db, u, Sizes(db)), Total(db, u, Counts(db))))
        else At(db.objects, o)
  {
  }

  lemma AssemblyObject(db: Db, u: UploadId, v: ObjectId, manifest: seq<PartRef>, o: ObjectId)
    ensures At(CompleteMultipart(db, u, v, manifest).objects, o) ==
      ObjectCell(db, OnMultipart(DoCompleteMultipart(u, v, manifest)), o)
  {
    AssemblyMeans(db, u, v, manifest);
    if Assembles(db, u, v, manifest) {
      var ps := CompleteParts(db.parts, u);
      var a, size, count := Assemble(db, u, v), DeclaredSize(db.parts, ps), DeclaredChunks(db.parts, ps);
      TotalMeans(db, u);
      AssembledObjects(db, u, v, manifest, o);
      AssembledRow(db, u, v, manifest, o);
      ShownObject(a, v, size, count, o);
      LeftoverObjects(Show(a, v, size, count), u);
      AssembledOthers(db, u, v, manifest, o);
    }
  }

  lemma AssembledOthers(db: Db, u: UploadId, v: ObjectId, manifest: seq<PartRef>, o: ObjectId)
    requires Assembles(db, u, v, manifest)
    ensures o != v ==> At(Assemble(db, u, v).objects, o) == At(db.objects, o)
    ensures o != v ==>
      (Shown(Assemble(db, u, v), o, db.uploads[u].key) <==>
       EndsObject(db, OnMultipart(DoCompleteMultipart(u, v, manifest)), o))
    ensures !EndsObject(db, OnMultipart(DoCompleteMultipart(u, v, manifest)), v)
  {
  }

  lemma MultipartObjects(db: Db, s: MultipartStep, o: ObjectId)
    ensures At(ApplyMultipart(db, s).objects, o) == ObjectCell(db, OnMultipart(s), o)
  {
    match s
    case DoCompleteMultipart(u, v, manifest) => AssemblyObject(db, u, v, manifest, o);
    case DoBeginPart(p, u, number) =>
    case DoAbortMultipart(u) =>
    case DoCreateMultipart(_, _) =>
    case DoCompletePart(_, _, _, _) =>
    case DoPurgeUploads(_) =>
  }

  lemma Objects(db: Db, s: Step, o: ObjectId)
    ensures At(Apply(db, s).objects, o) == ObjectCell(db, s, o)
  {
    match s
    case OnUploads(u) => UploadObjects(db, u, o);
    case OnMultipart(m) => MultipartObjects(db, m, o);
    case OnGc(DoPurge(cs, os)) => PurgedObjects(db, cs, os, o);
    case OnGc(g) => KeepsChunks(db, g);
    case OnReplicas(r) =>
    case OnRepairs(j) =>
    case Tick(_) =>
  }

  // ------------------------------------------------------------ sessions and parts

  /** An assembly closes its session and leaves every other session and every part as it is. */
  lemma AssemblyFrame(db: Db, u: UploadId, o: ObjectId, manifest: seq<PartRef>)
    ensures var d := CompleteMultipart(db, u, o, manifest);
      && d.parts == db.parts
      && d.uploads ==
         if Assembles(db, u, o, manifest) then db.uploads[u := db.uploads[u].(state := Completed)] else db.uploads
  {
    AssemblyMeans(db, u, o, manifest);
  }

  lemma ForgetMeans(db: Db, u: UploadId)
    ensures OwnedByParts(db.chunks, PartsOf(db.parts, u)) == {} <==>
      forall c | c in db.chunks && db.chunks[c].owner.PartOwner? && db.chunks[c].owner.pid in db.parts ::
        db.parts[db.chunks[c].owner.pid].upload != u
  {
    var left := OwnedByParts(db.chunks, PartsOf(db.parts, u));
    forall c | c in db.chunks && db.chunks[c].owner.PartOwner? && db.chunks[c].owner.pid in db.parts
      ensures c in left <==> db.parts[db.chunks[c].owner.pid].upload == u
    {
    }
    assert forall c | c in left :: db.chunks[c].owner.pid in db.parts;
  }

  lemma AssemblySession(db: Db, d: Db, v: UploadId, o: ObjectId, manifest: seq<PartRef>, u: UploadId)
    requires d.uploads ==
      if Assembles(db, v, o, manifest) then db.uploads[v := db.uploads[v].(state := Completed)] else db.uploads
    ensures At(d.uploads, u) == UploadCell(db, OnMultipart(DoCompleteMultipart(v, o, manifest)), u)
  {
  }

  lemma PurgedSession(db: Db, us: set<UploadId>, u: UploadId)
    ensures At(PurgeUploads(db, us).uploads, u) == UploadCell(db, OnMultipart(DoPurgeUploads(us)), u)
  {
    ForgetMeans(db, u);
  }

  lemma PurgedPart(db: Db, us: set<UploadId>, p: PartId)
    ensures At(PurgeUploads(db, us).parts, p) == PartCell(db, OnMultipart(DoPurgeUploads(us)), p)
  {
    if p in db.parts {
      ForgetMeans(db, db.parts[p].upload);
    }
  }

  lemma AbortFrame(db: Db, v: UploadId)
    ensures AbortMultipart(db, v).uploads ==
      if Aborts(db, v) then db.uploads[v := UploadRow(db.uploads[v].key, Aborted)] else db.uploads
  {
  }

  lemma AbortedSession(db: Db, v: UploadId, u: UploadId)
    ensures At(AbortMultipart(db, v).uploads, u) == UploadCell(db, OnMultipart(DoAbortMultipart(v)), u)
  {
    AbortFrame(db, v);
  }

  lemma CreatedSession(db: Db, v: UploadId, k: Key, u: UploadId)
    ensures At(CreateMultipart(db, v, k).uploads, u) == UploadCell(db, OnMultipart(DoCreateMultipart(v, k)), u)
  {
  }

  lemma PartsKeepSessions(db: Db, s: MultipartStep)
    requires s.DoBeginPart? || s.DoCompletePart?
    ensures ApplyMultipart(db, s).uploads == db.uploads
  {
  }

  lemma MultipartUploads(db: Db, s: MultipartStep, u: UploadId)
    ensures At(ApplyMultipart(db, s).uploads, u) == UploadCell(db, OnMultipart(s), u)
  {
    match s
    case DoCreateMultipart(v, k) => CreatedSession(db, v, k, u);
    case DoBeginPart(_, _, _) => PartsKeepSessions(db, s);
    case DoCompletePart(_, _, _, _) => PartsKeepSessions(db, s);
    case DoCompleteMultipart(v, o, manifest) =>
      AssemblyFrame(db, v, o, manifest);
      AssemblySession(db, CompleteMultipart(db, v, o, manifest), v, o, manifest, u);
    case DoAbortMultipart(v) => AbortedSession(db, v, u);
    case DoPurgeUploads(us) => PurgedSession(db, us, u);
  }

  lemma FailedPart(db: Db, ps: set<PartId>, p: PartId)
    ensures At(FailParts(db, ps).parts, p) ==
      if p in db.parts && p in ps then Is(db.parts[p].(state := PartFailed)) else At(db.parts, p)
  {
  }

  lemma BegunPart(db: Db, q: PartId, u: UploadId, number: nat, p: PartId)
    ensures At(BeginPart(db, q, u, number).parts, p) == PartCell(db, OnMultipart(DoBeginPart(q, u, number)), p)
  {
    FailedPart(db, PriorAttempts(db.parts, u, number), p);
  }

  lemma AbandonedPart(db: Db, u: UploadId, p: PartId)
    ensures At(AbortMultipart(db, u).parts, p) == PartCell(db, OnMultipart(DoAbortMultipart(u)), p)
  {
    if Aborts(db, u) {
      FailedPart(db.(uploads := db.uploads[u := db.uploads[u].(state := Aborted)]), PartsOf(db.parts, u), p);
    }
  }

  lemma FinishedPart(db: Db, q: PartId, size: nat, count: nat, etag: string, p: PartId)
    ensures At(CompletePart(db, q, size, count, etag).parts, p) ==
      PartCell(db, OnMultipart(DoCompletePart(q, size, count, etag)), p)
  {
    PartMeans(db, q, count);
  }

  lemma MultipartParts(db: Db, s: MultipartStep, p: PartId)
    ensures At(ApplyMultipart(db, s).parts, p) == PartCell(db, OnMultipart(s), p)
  {
    match s
    case DoCreateMultipart(_, _) =>
    case DoBeginPart(q, u, number) => BegunPart(db, q, u, number, p);
    case DoCompletePart(q, size, count, etag) => FinishedPart(db, q, size, count, etag, p);
    case DoCompleteMultipart(u, o, manifest) => AssemblyFrame(db, u, o, manifest);
    case DoAbortMultipart(u) => AbandonedPart(db, u, p);
    case DoPurgeUploads(us) => PurgedPart(db, us, p);
  }

  /** Only the session's own steps touch sessions and parts. */
  lemma SessionFrame(db: Db, s: Step)
    requires !s.OnMultipart?
    ensures Apply(db, s).uploads == db.uploads && Apply(db, s).parts == db.parts
  {
    match s
    case OnReplicas(r) => assert OnlyReplicas(db, ApplyReplica(db, r));
    case OnUploads(t) => assert OnlyObjects(db, ApplyUpload(db, t));
    case OnRepairs(j) => assert OnlyJobs(db, ApplyRepair(db, j));
    case OnGc(g) =>
      if !g.DoPurge? {
        KeepsChunks(db, g);
      }
    case Tick(_) =>
  }

  lemma Sessions(db: Db, s: Step, u: UploadId, p: PartId)
    ensures At(Apply(db, s).uploads, u) == UploadCell(db, s, u)
    ensures At(Apply(db, s).parts, p) == PartCell(db, s, p)
  {
    if s.OnMultipart? {
      MultipartUploads(db, s.m, u);
      MultipartParts(db, s.m, p);
    } else {
      SessionFrame(db, s);
    }
  }

  // ------------------------------------------------------------------------- nodes

  lemma NodeSteps(db: Db, r: ReplicaStep, n: NodeId)
    ensures At(ApplyReplica(db, r).nodes, n) == NodeCell(db, OnReplicas(r), n)
  {
    match r
    case DoRecordNode(_, _) =>
    case DoSetNodeHealth(m, h) => HealthNoted(db, m, h, n);
    case _ => OtherNodes(db, r);
  }

  lemma HealthNoted(db: Db, m: NodeId, h: Health, n: NodeId)
    ensures At(SetNodeHealth(db, m, h).nodes, n) == NodeCell(db, OnReplicas(DoSetNodeHealth(m, h)), n)
  {
    assert SetNodeHealth(db, m, h).nodes == NoteHealth(db, m, h).nodes;
  }

  lemma OtherNodes(db: Db, r: ReplicaStep)
    requires !r.DoRecordNode? && !r.DoSetNodeHealth?
    ensures ApplyReplica(db, r).nodes == db.nodes
  {
  }

  lemma Nodes(db: Db, s: Step, n: NodeId)
    ensures At(Apply(db, s).nodes, n) == NodeCell(db, s, n)
  {
    match s
    case OnReplicas(r) => NodeSteps(db, r, n);
    case OnGc(g) =>
      if !g.DoPurge? {
        KeepsChunks(db, g);
      }
    case OnUploads(t) => assert OnlyObjects(db, ApplyUpload(db, t));
    case OnMultipart(m) => assert OnlyCatalog(db, ApplyMultipart(db, m));
    case OnRepairs(j) => assert OnlyJobs(db, ApplyRepair(db, j));
    case Tick(_) =>
  }

  // ------------------------------------------------------------------- repair jobs

  lemma BusyMeans(db: Db, c: ChunkId)
    ensures HasActiveJob(db, c) <==> Busy(db, c)
  {
    if HasActiveJob(db, c) {
      var j :| j in db.jobs && j.chunk == c && Active(db.jobs[j]);
      assert db.jobs[j].state in {JobPending, JobRunning};
    }
    if Busy(db, c) {
      var j :| j in db.jobs && j.chunk == c && db.jobs[j].state in {JobPending, JobRunning};
      assert Active(db.jobs[j]);
    }
  }

  lemma ScanMeans(db: Db, rf: nat, cs: set<ChunkId>, c: ChunkId)
    ensures c in cs && NeedsRepair(db, c, rf) && !HasActiveJob(db, c) <==> Scans(db, rf, cs, c)
  {
    BusyMeans(db, c);
  }

  lemma EnqueuedJob(db: Db, rf: nat, cs: set<ChunkId>, j: JobId)
    ensures At(EnqueueRepairs(db, rf, cs).jobs, j) == JobCell(db, OnRepairs(DoEnqueue(rf, cs)), j)
  {
    ScanMeans(db, rf, cs, j.chunk);
    assert j.serial == db.serial ==> j == JobId(j.chunk, db.serial);
    assert j in NewJobs(db, rf, cs) <==> j.serial == db.serial && Scans(db, rf, cs, j.chunk);
  }

  lemma ReclaimedJob(db: Db, j: JobId)
    ensures At(ReclaimLeases(db).jobs, j) == JobCell(db, OnRepairs(DoReclaimLeases), j)
  {
  }

  lemma ConflictMeans(db: Db, j: JobId)
    ensures RequeueConflicts(db, j) <==> BusyBesides(db, j)
  {
    if RequeueConflicts(db, j) {
      var i :| i in db.jobs && i != j && i.chunk == j.chunk && Active(db.jobs[i]);
      assert db.jobs[i].state in {JobPending, JobRunning};
    }
    if BusyBesides(db, j) {
      var i :| i in db.jobs && i != j && i.chunk == j.chunk && db.jobs[i].state in {JobPending, JobRunning};
      assert Active(db.jobs[i]);
    }
  }

  lemma RetriedRow(db: Db, k: JobId, backoff: nat, max: nat)
    ensures var d := FailRepair(db, k, backoff, max);
      if k !in db.jobs || (db.jobs[k].attempts < max && BusyBesides(db, k)) then d.jobs == db.jobs
      else
        var row := db.jobs[k];
        d.jobs ==
          db.jobs[k := JobRow(if row.attempts >= max then JobFailed else JobPending, row.attempts, 0, db.now + backoff)]
  {
    ConflictMeans(db, k);
  }

  lemma FailedAttempt(db: Db, k: JobId, backoff: nat, max: nat, j: JobId)
    ensures At(FailRepair(db, k, backoff, max).jobs, j) == JobCell(db, OnRepairs(DoFailRepair(k, backoff, max)), j)
  {
    RetriedRow(db, k, backoff, max);
  }

  lemma EligibleMeans(db: Db, js: set<JobId>, j: JobId)
    ensures j in Requeueable(db, js) <==> Eligible(db, js, j)
  {
    BusyMeans(db, j.chunk);
  }

  lemma CollideMeans(db: Db, js: set<JobId>)
    ensures RequeueAborts(db, js) <==> Collides(db, js)
  {
    forall j ensures j in Requeueable(db, js) <==> Eligible(db, js, j) {
      EligibleMeans(db, js, j);
    }
    if RequeueAborts(db, js) {
      var all := Requeueable(db, js);
      var i, j :| i in all && j in all && i != j && i.chunk == j.chunk;
      assert Eligible(db, js, i) && Eligible(db, js, j);
    }
    if Collides(db, js) {
      var i, j :| Eligible(db, js, i) && Eligible(db, js, j) && i != j && i.chunk == j.chunk;
      assert i in Requeueable(db, js) && j in Requeueable(db, js);
    }
  }

  lemma RequeuedJob(db: Db, js: set<JobId>, j: JobId)
    ensures At(RequeueFailed(db, js).jobs, j) == JobCell(db, OnRepairs(DoRequeue(js)), j)
  {
    EligibleMeans(db, js, j);
    CollideMeans(db, js);
  }

  lemma PurgedJob(db: Db, rf: nat, js: set<JobId>, j: JobId)
    ensures At(PurgeJobs(db, rf, js).jobs, j) == JobCell(db, OnRepairs(DoPurgeJobs(rf, js)), j)
  {
  }

  lemma ClaimedRepair(db: Db, k: JobId, lease: nat, j: JobId)
    ensures At(ClaimRepair(db, k, lease).jobs, j) == JobCell(db, OnRepairs(DoClaim(k, lease)), j)
  {
  }

  lemma ClosedJob(db: Db, k: JobId, j: JobId)
    ensures At(CloseJob(db, k).jobs, j) == JobCell(db, OnRepairs(DoCloseJob(k)), j)
  {
  }

  lemma RepairedJob(db: Db, k: JobId, dest: NodeId, j: JobId)
    ensures At(CompleteRepair(db, k, dest).jobs, j) == JobCell(db, OnRepairs(DoCompleteRepair(k, dest)), j)
  {
    if k.chunk in db.chunks && dest in db.nodes {
      var done := SetReplica(db, Loc(k.chunk, dest), Available);
      assert done.jobs == db.jobs;
      ClosedJob(done, k, j);
    }
  }

  lemma RepairJobs(db: Db, s: RepairStep, j: JobId)
    ensures At(ApplyRepair(db, s).jobs, j) == JobCell(db, OnRepairs(s), j)
  {
    match s
    case DoEnqueue(rf, cs) => EnqueuedJob(db, rf, cs, j);
    case DoReclaimLeases => ReclaimedJob(db, j);
    case DoClaim(k, lease) => ClaimedRepair(db, k, lease, j);
    case DoCompleteRepair(k, dest) => RepairedJob(db, k, dest, j);
    case DoCloseJob(k) => ClosedJob(db, k, j);
    case DoFailRepair(k, backoff, max) => FailedAttempt(db, k, backoff, max, j);
    case DoRequeue(js) => RequeuedJob(db, js, j);
    case DoPurgeJobs(rf, js) => PurgedJob(db, rf, js, j);
  }

  lemma DroppedJob(db: Db, cs: set<ChunkId>, os: set<ObjectId>, j: JobId)
    ensures At(PurgeReclaimed(db, cs, os).jobs, j) == JobCell(db, OnGc(DoPurge(cs, os)), j)
  {
    var first := DropChunks(db, PurgeableChunks(db, cs));
    var gone := OwnedByObjects(first.chunks, PurgeableObjects(first, os));
    PurgedChunk(db, cs, os, j.chunk);
    assert Purges(db, OnGc(DoPurge(cs, os)), j.chunk) <==> j.chunk in PurgeableChunks(db, cs) + gone;
  }

  lemma Jobs(db: Db, s: Step, j: JobId)
    ensures At(Apply(db, s).jobs, j) == JobCell(db, s, j)
  {
    match s
    case OnRepairs(r) => RepairJobs(db, r, j);
    case OnGc(DoPurge(cs, os)) => DroppedJob(db, cs, os, j);
    case OnGc(g) => KeepsChunks(db, g);
    case OnReplicas(r) =>
    case OnUploads(u) =>
    case OnMultipart(m) =>
    case Tick(_) =>
  }

  // ------------------------------------------------------------------ the whole step

  lemma GcClock(db: Db, g: GcStep)
    ensures ApplyGc(db, g).now == db.now && db.serial <= ApplyGc(db, g).serial
  {
  }

  lemma Clock(db: Db, s: Step)
    ensures Apply(db, s).now == db.now + (if s.Tick? then s.dt else 0) && db.serial <= Apply(db, s).serial
  {
    match s
    case OnReplicas(r) => assert OnlyReplicas(db, ApplyReplica(db, r));
    case OnUploads(t) => assert OnlyObjects(db, ApplyUpload(db, t));
    case OnMultipart(m) => assert OnlyCatalog(db, ApplyMultipart(db, m));
    case OnRepairs(j) => assert OnlyJobs(db, ApplyRepair(db, j));
    case OnGc(g) => GcClock(db, g);
    case Tick(_) =>
  }

  /** Refinement: every transaction does to every row of every table exactly what the reference says. */
  lemma StepRefines(db: Db, s: Step)
    ensures Reference.Matches(db, s, Apply(db, s))
  {
    var d := Apply(db, s);
    forall l ensures At(d.replicas, l) == ReplicaCell(db, s, l) && DeletionMatches(db, d, s, l) {
      Rows(db, s, l);
      DeletionJobs(db, s, l);
    }
    forall c ensures At(d.chunks, c) == ChunkCell(db, s, c) {
      Chunks(db, s, c);
    }
    forall o ensures At(d.objects, o) == ObjectCell(db, s, o) {
      Objects(db, s, o);
    }
    forall u ensures At(d.uploads, u) == UploadCell(db, s, u) {
      Sessions(db, s, u, 0);
    }
    forall p ensures At(d.parts, p) == PartCell(db, s, p) {
      Sessions(db, s, 0, p);
    }
    forall n ensures At(d.nodes, n) == NodeCell(db, s, n) {
      Nodes(db, s, n);
    }
    forall j ensures At(d.jobs, j) == JobCell(db, s, j) {
      Jobs(db, s, j);
    }
    Clock(db, s);
  }

  /** Every step of every run is one the reference describes. */
  lemma RunRefines(db: Db, steps: seq<Step>, i: nat)
    requires i < |steps|
    ensures Reference.Matches(Run(db, steps[..i]), steps[i], Run(db, steps[..i + 1]))
  {
    assert steps[..i + 1][..i] == steps[..i];
    StepRefines(Run(db, steps[..i]), steps[i]);
  }

  lemma SameCells<K, V>(a: map<K, V>, b: map<K, V>)
    requires forall k :: At(a, k) == At(b, k)
    ensures a == b
  {
    assert forall k :: (k in a <==> At(a, k).Is?) && (k in b <==> At(b, k).Is?);
    forall k | k in a ensures k in b && a[k] == b[k] {
      assert At(a, k) == At(b, k);
    }
    forall k | k in b ensures k in a {
      assert At(a, k) == At(b, k);
    }
  }

  /** The reference leaves no freedom but the serial numbers: two outcomes of one step agree on every other value. */
  lemma MatchDetermines(db: Db, s: Step, d: Db, e: Db)
    requires Reference.Matches(db, s, d) && Reference.Matches(db, s, e)
    ensures d.replicas == e.replicas && d.chunks == e.chunks && d.objects == e.objects && d.uploads == e.uploads
    ensures d.parts == e.parts && d.nodes == e.nodes && d.jobs == e.jobs && d.now == e.now
    ensures d.deletions.Keys == e.deletions.Keys
    ensures forall l | l in d.deletions :: d.deletions[l].(serial := 0) == e.deletions[l].(serial := 0)
  {
    SameCells(d.replicas, e.replicas);
    SameCells(d.chunks, e.chunks);
    SameCells(d.objects, e.objects);
    SameCells(d.uploads, e.uploads);
    SameCells(d.parts, e.parts);
    SameCells(d.nodes, e.nodes);
    SameCells(d.jobs, e.jobs);
    forall l ensures l in d.deletions <==> l in e.deletions
      ensures l in d.deletions ==> d.deletions[l].(serial := 0) == e.deletions[l].(serial := 0)
    {
      SameDeletion(db, s, d, e, l);
    }
  }

  lemma SameDeletion(db: Db, s: Step, d: Db, e: Db, l: Loc)
    requires DeletionMatches(db, d, s, l) && DeletionMatches(db, e, s, l)
    ensures l in d.deletions <==> l in e.deletions
    ensures l in d.deletions ==> d.deletions[l].(serial := 0) == e.deletions[l].(serial := 0)
  {
    assert (l in d.deletions <==> At(d.deletions, l).Is?) && (l in e.deletions <==> At(e.deletions, l).Is?);
  }
}
