/** What becomes of objects, parts and their chunks over whole runs. */
module Lifecycles {
  import opened Tables
  import opened Transactions
  import opened Invariants
  import opened Workers
  import opened Reclamation

  // ------------------------------------------------------------- a retired object

  /** The step gives the identifier to a new object. */
  predicate Mints(s: Step, o: ObjectId) {
    match s
    case OnUploads(DoBeginUpload(v, _)) => v == o
    case OnMultipart(DoCompleteMultipart(_, v, _)) => v == o
    case _ => false
  }

  /** Gone, retired or failed, owning no chunk outside `cs`. */
  ghost predicate Retired(objects: map<ObjectId, ObjectRow>, chunks: map<ChunkId, ChunkRow>, o: ObjectId,
                          cs: set<ChunkId>) {
    (o in objects ==> objects[o].state in {Retiring, Failed}) && Owned(chunks, ObjectOwner(o)) <= cs
  }

  ghost predicate RetiredIn(db: Db, o: ObjectId, cs: set<ChunkId>) {
    Retired(db.objects, db.chunks, o, cs)
  }

  /** No chunk changes hands towards `o`. */
  lemma RetiredOwners(db: Db, d: Db, o: ObjectId, cs: set<ChunkId>)
    requires RetiredIn(db, o, cs) && d.objects == db.objects
    requires forall c | c in d.chunks ::
      d.chunks[c].owner != ObjectOwner(o) || (c in db.chunks && d.chunks[c].owner == db.chunks[c].owner)
    ensures RetiredIn(d, o, cs)
  {
  }

  lemma RetiredReuse(db: Db, taken: set<ChunkId>, size: nat, o: ObjectId, cs: set<ChunkId>)
    requires RetiredIn(db, o, cs)
    ensures RetiredIn(ReuseChunks(db, taken, size), o, cs)
  {
    RetiredOwners(db, ReuseChunks(db, taken, size), o, cs);
  }

  lemma RetiredMint(db: Db, id: ChunkId, owner: Owner, index: nat, size: nat, o: ObjectId, cs: set<ChunkId>)
    requires RetiredIn(db, o, cs) && owner != ObjectOwner(o)
    ensures RetiredIn(MintChunk(db, id, owner, index, size), o, cs)
  {
    RetiredOwners(db, MintChunk(db, id, owner, index, size), o, cs);
  }

  lemma RetiredReserve(db: Db, id: ChunkId, owner: Owner, index: nat, size: nat, o: ObjectId, cs: set<ChunkId>)
    requires RetiredIn(db, o, cs)
    ensures RetiredIn(ReserveChunk(db, id, owner, index, size), o, cs)
  {
    var taken := AtPosition(db.chunks, owner, index);
    if !Writable(db, owner) {
    } else if taken != {} {
      RetiredReuse(db, taken, size, o, cs);
    } else if id !in db.chunks && id != 0 {
      RetiredMint(db, id, owner, index, size, o, cs);
    }
  }

  lemma RetiredFrame(db: Db, d: Db, o: ObjectId, cs: set<ChunkId>)
    requires RetiredIn(db, o, cs) && d.objects == db.objects && d.chunks == db.chunks
    ensures RetiredIn(d, o, cs)
  {
  }

  lemma GcFrame(db: Db, g: GcStep)
    requires !g.DoPurge?
    ensures var d := ApplyGc(db, g);
      d.objects == db.objects && d.uploads == db.uploads && d.parts == db.parts && d.chunks == db.chunks
  {
  }

  lemma RetiredCommit(db: Db, c: ChunkId, sum: string, size: nat, ok: set<NodeId>, bad: set<NodeId>, min: nat,
                      o: ObjectId, cs: set<ChunkId>)
    requires RetiredIn(db, o, cs)
    ensures RetiredIn(CommitChunk(db, c, sum, size, ok, bad, min), o, cs)
  {
    var d := CommitChunk(db, c, sum, size, ok, bad, min);
    assert d == db || d.chunks == db.chunks[c := db.chunks[c].(checksum := sum, size := size, state := Committed)];
    RetiredOwners(db, d, o, cs);
  }

  lemma RetiredDelete(db: Db, k: Key, o: ObjectId, cs: set<ChunkId>)
    requires RetiredIn(db, o, cs)
    ensures RetiredIn(DeleteObject(db, k), o, cs)
  {
  }

  lemma RetiredShow(db: Db, v: ObjectId, size: nat, count: nat, o: ObjectId, cs: set<ChunkId>)
    requires RetiredIn(db, o, cs) && v in db.objects && v != o
    ensures RetiredIn(Show(db, v, size, count), o, cs)
  {
  }

  lemma RetiredUpload(db: Db, s: UploadStep, o: ObjectId, cs: set<ChunkId>)
    requires RetiredIn(db, o, cs) && !Mints(OnUploads(s), o)
    ensures RetiredIn(ApplyUpload(db, s), o, cs)
  {
    match s
    case DoReserve(id, owner, index, size) => RetiredReserve(db, id, owner, index, size, o, cs);
    case DoCommit(c, sum, size, ok, bad, min) => RetiredCommit(db, c, sum, size, ok, bad, min, o, cs);
    case DoBeginUpload(_, _) =>
    case DoCompleteUpload(v, size, count) =>
      if CompleteAccepted(db, v, count) {
        RetiredShow(db, v, size, count, o, cs);
      }
    case DoAbortUploads(os) => RetiredAbort(db, os, o, cs);
    case DoDeleteObject(k) => RetiredDelete(db, k, o, cs);
  }

  lemma RetiredAbort(db: Db, os: set<ObjectId>, o: ObjectId, cs: set<ChunkId>)
    requires RetiredIn(db, o, cs)
    ensures RetiredIn(AbortUploads(db, os), o, cs)
  {
    assert o !in InFlight(db, os);
    var hit := InFlight(db, os);
    RetiredOrphans(SetObjectStates(db, hit, Failed), OwnedByObjects(db.chunks, hit), o, cs);
  }

  lemma RetiredOrphans(db: Db, hit: set<ChunkId>, o: ObjectId, cs: set<ChunkId>)
    requires RetiredIn(db, o, cs)
    ensures RetiredIn(OrphanChunks(db, hit), o, cs)
  {
    assert Owned(OrphanChunks(db, hit).chunks, ObjectOwner(o)) == Owned(db.chunks, ObjectOwner(o));
  }

  lemma RetiredFailParts(db: Db, ps: set<PartId>, o: ObjectId, cs: set<ChunkId>)
    requires RetiredIn(db, o, cs)
    ensures RetiredIn(FailParts(db, ps), o, cs)
  {
    RetiredOrphans(SetPartsFailed(db, ps), OwnedByParts(db.chunks, ps), o, cs);
  }

  lemma RetiredAssemble(db: Db, u: UploadId, v: ObjectId, o: ObjectId, cs: set<ChunkId>)
    requires RetiredIn(db, o, cs) && u in db.uploads && v != o
    ensures RetiredIn(Assemble(db, u, v), o, cs)
  {
    var a := Assemble(db, u, v);
    assert forall c | c in a.chunks :: a.chunks[c].owner == db.chunks[c].owner || a.chunks[c].owner == ObjectOwner(v);
  }

  lemma RetiredAssembly(db: Db, u: UploadId, v: ObjectId, manifest: seq<PartRef>, o: ObjectId, cs: set<ChunkId>)
    requires RetiredIn(db, o, cs) && v != o
    ensures RetiredIn(CompleteMultipart(db, u, v, manifest), o, cs)
  {
    if AssemblyCommits(db, u, v, manifest) {
      var ps := CompleteParts(db.parts, u);
      var a, size, count := Assemble(db, u, v), DeclaredSize(db.parts, ps), DeclaredChunks(db.parts, ps);
      RetiredAssemble(db, u, v, o, cs);
      RetiredShow(a, v, size, count, o, cs);
      var shown := Show(a, v, size, count);
      var left := OwnedByParts(shown.chunks, PartsOf(shown.parts, u));
      RetiredOrphans(RetireChunks(shown, left), left, o, cs);
    }
  }

  lemma RetiredMultipart(db: Db, s: MultipartStep, o: ObjectId, cs: set<ChunkId>)
    requires RetiredIn(db, o, cs) && !Mints(OnMultipart(s), o)
    ensures RetiredIn(ApplyMultipart(db, s), o, cs)
  {
    match s
    case DoCompleteMultipart(u, v, manifest) => RetiredAssembly(db, u, v, manifest, o, cs);
    case DoBeginPart(p, u, number) => RetiredFailParts(db, PriorAttempts(db.parts, u, number), o, cs);
    case DoAbortMultipart(u) =>
      if u in db.uploads {
        var closed := db.(uploads := db.uploads[u := db.uploads[u].(state := Aborted)]);
        RetiredFailParts(closed, PartsOf(db.parts, u), o, cs);
      }
    case DoCreateMultipart(_, _) =>
    case DoCompletePart(_, _, _, _) =>
    case DoPurgeUploads(_) =>
  }

  lemma RetiredPurge(db: Db, gone: set<ChunkId>, os: set<ObjectId>, o: ObjectId, cs: set<ChunkId>)
    requires RetiredIn(db, o, cs)
    ensures RetiredIn(PurgeReclaimed(db, gone, os), o, cs)
  {
  }

  lemma RetiredStep(db: Db, s: Step, o: ObjectId, cs: set<ChunkId>)
    requires RetiredIn(db, o, cs) && !Mints(s, o)
    ensures RetiredIn(Apply(db, s), o, cs)
  {
    match s
    case OnUploads(u) => RetiredUpload(db, u, o, cs);
    case OnMultipart(m) => RetiredMultipart(db, m, o, cs);
    case OnGc(DoPurge(gone, os)) => RetiredPurge(db, gone, os, o, cs);
    case OnGc(g) =>
      GcFrame(db, g);
      RetiredFrame(db, ApplyGc(db, g), o, cs);
    case OnReplicas(r) => RetiredFrame(db, ApplyReplica(db, r), o, cs);
    case OnRepairs(j) => RetiredFrame(db, ApplyRepair(db, j), o, cs);
    case Tick(_) => RetiredFrame(db, Apply(db, s), o, cs);
  }

  lemma RetiredReact(sys: System, e: Event, o: ObjectId, cs: set<ChunkId>)
    requires RetiredIn(sys.db, o, cs) && (e.Store? ==> !Mints(e.s, o))
    ensures RetiredIn(React(sys, e).db, o, cs)
  {
    if e.Store? && !Public(e.s) {
    } else {
      ReactIssues(sys, e);
      RetiredStep(sys.db, Issued(sys, e), o, cs);
    }
  }

  /** A retired or failed object never comes back and never gains a chunk, until its identifier is given away again. */
  lemma {:induction false} RetiredForever(sys: System, events: seq<Event>, o: ObjectId, cs: set<ChunkId>)
    requires RetiredIn(sys.db, o, cs) && forall e | e in events && e.Store? :: !Mints(e.s, o)
    ensures RetiredIn(Play(sys, events).db, o, cs)
    decreases |events|
  {
    if events != [] {
      var past := events[..|events| - 1];
      RetiredForever(sys, past, o, cs);
      RetiredReact(Play(sys, past), events[|events| - 1], o, cs);
    }
  }

  /** Each job the chunk had at the start of the run was resolved, with nothing writing to the chunk. */
  ghost predicate Collected(sys: System, events: seq<Event>, c: ChunkId) {
    && UndisturbedRun(sys, events, c)
    && forall n: NodeId :: Loc(c, n) in sys.db.deletions ==> Resolved(sys, events, Loc(c, n))
  }

  /** The step retires or fails the object and marks every replica of its chunks DELETING. */
  ghost predicate Condemns(db: Db, s: Step, o: ObjectId) {
    match s
    case OnUploads(DoDeleteObject(k)) => o in CompleteVersions(db.objects, k)
    case OnUploads(DoCompleteUpload(v, size, count)) =>
      CompleteAccepted(db, v, count) && o in CompleteVersions(db.objects, db.objects[v].key)
    case OnUploads(DoAbortUploads(os)) => o in InFlight(db, os)
    case OnMultipart(DoCompleteMultipart(u, v, manifest)) =>
      AssemblyCommits(db, u, v, manifest) && o in CompleteVersions(db.objects, db.uploads[u].key)
    case _ => false
  }

  /** The object's end as its replicas see it. */
  ghost predicate Ended(d: Db, o: ObjectId, owned: set<ChunkId>) {
    RetiredIn(d, o, owned) && forall c | c in owned :: Condemned(d.replicas, c)
  }

  lemma DeleteEnds(db: Db, k: Key, o: ObjectId)
    requires o in CompleteVersions(db.objects, k)
    ensures Ended(DeleteObject(db, k), o, Owned(db.chunks, ObjectOwner(o)))
  {
    forall c | c in Owned(db.chunks, ObjectOwner(o)) ensures Condemned(DeleteObject(db, k).replicas, c) {
      DeleteCondemns(db, k, o, c);
    }
  }

  lemma OverwriteEnds(db: Db, v: ObjectId, size: nat, count: nat, o: ObjectId)
    requires CompleteAccepted(db, v, count) && o in CompleteVersions(db.objects, db.objects[v].key)
    ensures Ended(CompleteUpload(db, v, size, count), o, Owned(db.chunks, ObjectOwner(o)))
  {
    forall c | c in Owned(db.chunks, ObjectOwner(o)) ensures Condemned(CompleteUpload(db, v, size, count).replicas, c) {
      OverwriteCondemns(db, v, size, count, o, c);
    }
  }

  lemma AbortEnds(db: Db, os: set<ObjectId>, o: ObjectId)
    requires o in InFlight(db, os)
    ensures Ended(AbortUploads(db, os), o, Owned(db.chunks, ObjectOwner(o)))
  {
    var hit, d := InFlight(db, os), AbortUploads(db, os);
    forall c | c in Owned(db.chunks, ObjectOwner(o)) ensures Condemned(d.replicas, c) {
      AbortCondemns(db, os, o, c);
    }
    AbortOwners(db, os, o);
  }

  lemma AbortOwners(db: Db, os: set<ObjectId>, o: ObjectId)
    requires o in InFlight(db, os)
    ensures RetiredIn(AbortUploads(db, os), o, Owned(db.chunks, ObjectOwner(o)))
  {
    var hit := InFlight(db, os);
    var failed := SetObjectStates(db, hit, Failed);
    RetiredOrphans(failed, OwnedByObjects(db.chunks, hit), o, Owned(db.chunks, ObjectOwner(o)));
  }

  /** Publishing a version ends the one before it. */
  lemma ShowEnds(db: Db, v: ObjectId, size: nat, count: nat, o: ObjectId)
    requires v in db.objects && o in CompleteVersions(db.objects, db.objects[v].key) && o != v
    ensures Ended(Show(db, v, size, count), o, Owned(db.chunks, ObjectOwner(o)))
  {
    var prior := CompleteVersions(db.objects, db.objects[v].key) - {v};
    forall c | c in Owned(db.chunks, ObjectOwner(o)) ensures Condemned(Show(db, v, size, count).replicas, c) {
      RetireCondemns(SetObjectStates(db, prior, Retiring), OwnedByObjects(db.chunks, prior), c);
    }
  }

  lemma DiscardKeepsEnded(db: Db, u: UploadId, o: ObjectId, owned: set<ChunkId>)
    requires Ended(db, o, owned)
    ensures Ended(DiscardLeftovers(db, u), o, owned)
  {
    var left := OwnedByParts(db.chunks, PartsOf(db.parts, u));
    RetiredOrphans(RetireChunks(db, left), left, o, owned);
    forall c | c in owned ensures Condemned(DiscardLeftovers(db, u).replicas, c) {
      RetireKeepsCondemned(db, left, c);
    }
  }

  lemma RetireKeepsCondemned(db: Db, cs: set<ChunkId>, c: ChunkId)
    requires Condemned(db.replicas, c)
    ensures Condemned(RetireChunks(db, cs).replicas, c)
  {
  }

  /** Assembling an object ends the version it replaces. */
  lemma AssemblyEnds(db: Db, u: UploadId, v: ObjectId, manifest: seq<PartRef>, o: ObjectId)
    requires AssemblyCommits(db, u, v, manifest) && o in CompleteVersions(db.objects, db.uploads[u].key)
    ensures Ended(CompleteMultipart(db, u, v, manifest), o, Owned(db.chunks, ObjectOwner(o)))
  {
    var ps := CompleteParts(db.parts, u);
    var a, size, count := Assemble(db, u, v), DeclaredSize(db.parts, ps), DeclaredChunks(db.parts, ps);
    AssembleLeaves(db, u, v, o);
    ShowEnds(a, v, size, count, o);
    DiscardKeepsEnded(Show(a, v, size, count), u, o, Owned(a.chunks, ObjectOwner(o)));
  }

  lemma AssembleLeaves(db: Db, u: UploadId, v: ObjectId, o: ObjectId)
    requires u in db.uploads && v !in db.objects && o in CompleteVersions(db.objects, db.uploads[u].key)
    ensures var a := Assemble(db, u, v);
      && v in a.objects && o != v && o in CompleteVersions(a.objects, a.objects[v].key)
      && Owned(a.chunks, ObjectOwner(o)) == Owned(db.chunks, ObjectOwner(o))
  {
    var a := Assemble(db, u, v);
    assert forall c | c in db.chunks && c in Moved(db.parts, db.chunks, u) :: db.chunks[c].owner.PartOwner?;
  }

  lemma CondemningEnds(db: Db, s: Step, o: ObjectId)
    requires Condemns(db, s, o)
    ensures Ended(Apply(db, s), o, Owned(db.chunks, ObjectOwner(o)))
  {
    match s
    case OnUploads(DoDeleteObject(k)) => DeleteEnds(db, k, o);
    case OnUploads(DoCompleteUpload(v, size, count)) => OverwriteEnds(db, v, size, count, o);
    case OnUploads(DoAbortUploads(os)) => AbortEnds(db, os, o);
    case OnMultipart(DoCompleteMultipart(u, v, manifest)) => AssemblyEnds(db, u, v, manifest, o);
  }

  /**
   Deletion end to end, for an object deleted, overwritten, replaced by an assembly or aborted: once each deletion
   job of its chunks has been resolved, by an answer at any attempt or by the failure of the last one, and whatever
   else ran meanwhile, a purge takes the object and its chunks out of the tables.
   */
  lemma EndedIsPurged(sys: System, s: Step, o: ObjectId, events: seq<Event>, cs: set<ChunkId>, os: set<ObjectId>)
    requires Inv(sys.db) && LeaseInv(sys) && Condemns(sys.db, s, o) && o in os
    requires forall e | e in events && e.Store? :: !Mints(e.s, o)
    requires forall c | c in Owned(sys.db.chunks, ObjectOwner(o)) :: Collected(React(sys, Store(s)), events, c)
    ensures var d := PurgeReclaimed(Play(React(sys, Store(s)), events).db, cs, os);
      o !in d.objects && Owned(d.chunks, ObjectOwner(o)) == {}
  {
    var start, owned := React(sys, Store(s)), Owned(sys.db.chunks, ObjectOwner(o));
    ReactInv(sys, Store(s));
    ReactLeases(sys, Store(s));
    CondemningEnds(sys.db, s, o);
    assert Ended(start.db, o, owned);
    RetiredIsPurged(start, events, o, owned, cs, os);
  }

  lemma RetiredIsPurged(start: System, events: seq<Event>, o: ObjectId, owned: set<ChunkId>, cs: set<ChunkId>,
                        os: set<ObjectId>)
    requires Inv(start.db) && LeaseInv(start) && RetiredIn(start.db, o, owned) && o in os
    requires forall e | e in events && e.Store? :: !Mints(e.s, o)
    requires forall c | c in owned :: Condemned(start.db.replicas, c) && Collected(start, events, c)
    ensures var d := PurgeReclaimed(Play(start, events).db, cs, os);
      o !in d.objects && Owned(d.chunks, ObjectOwner(o)) == {}
  {
    var end := Play(start, events);
    forall c | c in owned ensures Reclaimed(end.db, c) {
      CondemnedReclaimedIff(start, events, c);
    }
    RetiredForever(start, events, o, owned);
    PlayInv(start, events);
    PurgeLeavesNothing(end.db, cs, os, o);
  }

  lemma PurgeLeavesNothing(db: Db, cs: set<ChunkId>, os: set<ObjectId>, o: ObjectId)
    requires Inv(db) && o in os && (o in db.objects ==> db.objects[o].state in {Retiring, Failed})
    requires forall c | c in Owned(db.chunks, ObjectOwner(o)) :: Reclaimed(db, c)
    ensures var d := PurgeReclaimed(db, cs, os); o !in d.objects && Owned(d.chunks, ObjectOwner(o)) == {}
  {
    if o in db.objects {
      PurgeExact(db, cs, os, o);
    } else {
      assert Owned(db.chunks, ObjectOwner(o)) == {};
    }
  }

  // --------------------------------------------------- a chunk of a closed session

  /** A chunk nobody orphaned, on a part of a session that has been completed. */
  ghost predicate Forgotten(uploads: map<UploadId, UploadRow>, parts: map<PartId, PartRow>, 
                            chunks: map<ChunkId, ChunkRow>,
                            u: UploadId, p: PartId, c: ChunkId) {
    && u in uploads && uploads[u].state == Completed
    && p in parts && parts[p].upload == u
    && c in chunks && chunks[c].owner == PartOwner(p) && chunks[c].state != Orphaned
  }

  ghost predicate ForgottenIn(db: Db, u: UploadId, p: PartId, c: ChunkId) {
    Forgotten(db.uploads, db.parts, db.chunks, u, p, c)
  }

  lemma ForgottenShow(db: Db, v: ObjectId, size: nat, count: nat, u: UploadId, p: PartId, c: ChunkId)
    requires ForgottenIn(db, u, p, c) && v in db.objects
    ensures ForgottenIn(Show(db, v, size, count), u, p, c)
  {
  }

  lemma ForgottenReserve(db: Db, id: ChunkId, owner: Owner, index: nat, size: nat, u: UploadId, p: PartId, c: ChunkId)
    requires ForgottenIn(db, u, p, c)
    ensures ForgottenIn(ReserveChunk(db, id, owner, index, size), u, p, c)
  {
  }

  lemma ForgottenCommit(db: Db, k: ChunkId, sum: string, size: nat, ok: set<NodeId>, bad: set<NodeId>, min: nat,
                        u: UploadId, p: PartId, c: ChunkId)
    requires ForgottenIn(db, u, p, c)
    ensures ForgottenIn(CommitChunk(db, k, sum, size, ok, bad, min), u, p, c)
  {
  }

  lemma ForgottenUpload(db: Db, s: UploadStep, u: UploadId, p: PartId, c: ChunkId)
    requires ForgottenIn(db, u, p, c)
    ensures ForgottenIn(ApplyUpload(db, s), u, p, c)
  {
    match s
    case DoReserve(id, owner, index, size) => ForgottenReserve(db, id, owner, index, size, u, p, c);
    case DoCommit(k, sum, size, ok, bad, min) => ForgottenCommit(db, k, sum, size, ok, bad, min, u, p, c);
    case DoBeginUpload(_, _) =>
    case DoCompleteUpload(v, size, count) =>
      if CompleteAccepted(db, v, count) {
        ForgottenShow(db, v, size, count, u, p, c);
      }
    case DoAbortUploads(os) => ForgottenAbort(db, os, u, p, c);
    case DoDeleteObject(k) =>
  }

  lemma ForgottenAbort(db: Db, os: set<ObjectId>, u: UploadId, p: PartId, c: ChunkId)
    requires ForgottenIn(db, u, p, c)
    ensures ForgottenIn(AbortUploads(db, os), u, p, c)
  {
    assert c !in OwnedByObjects(db.chunks, InFlight(db, os));
  }

  lemma ForgottenFailParts(db: Db, ps: set<PartId>, u: UploadId, p: PartId, c: ChunkId)
    requires ForgottenIn(db, u, p, c) && p !in ps
    ensures ForgottenIn(FailParts(db, ps), u, p, c)
  {
    assert c !in OwnedByParts(db.chunks, ps);
  }

  lemma ForgottenAssembly(db: Db, v: UploadId, o: ObjectId, manifest: seq<PartRef>, u: UploadId, p: PartId, c: ChunkId)
    requires ForgottenIn(db, u, p, c)
    ensures ForgottenIn(CompleteMultipart(db, v, o, manifest), u, p, c)
  {
    if AssemblyCommits(db, v, o, manifest) {
      var ps := CompleteParts(db.parts, v);
      var a, size, count := Assemble(db, v, o), DeclaredSize(db.parts, ps), DeclaredChunks(db.parts, ps);
      ForgottenAssemble(db, v, o, u, p, c);
      ForgottenShow(a, o, size, count, u, p, c);
      ForgottenDiscard(Show(a, o, size, count), v, u, p, c);
    }
  }

  lemma ForgottenAssemble(db: Db, v: UploadId, o: ObjectId, u: UploadId, p: PartId, c: ChunkId)
    requires ForgottenIn(db, u, p, c) && v in db.uploads && v != u
    ensures ForgottenIn(Assemble(db, v, o), u, p, c)
  {
    assert c !in Moved(db.parts, db.chunks, v);
  }

  lemma ForgottenDiscard(db: Db, v: UploadId, u: UploadId, p: PartId, c: ChunkId)
    requires ForgottenIn(db, u, p, c) && v != u
    ensures ForgottenIn(DiscardLeftovers(db, v), u, p, c)
  {
    assert c !in OwnedByParts(db.chunks, PartsOf(db.parts, v));
  }

  lemma ForgottenBegin(db: Db, q: PartId, v: UploadId, number: nat, u: UploadId, p: PartId, c: ChunkId)
    requires ForgottenIn(db, u, p, c)
    ensures ForgottenIn(BeginPart(db, q, v, number), u, p, c)
  {
    if v in db.uploads && db.uploads[v].state == InProgress {
      ForgottenFailParts(db, PriorAttempts(db.parts, v, number), u, p, c);
    }
  }

  lemma ForgottenAbortSession(db: Db, v: UploadId, u: UploadId, p: PartId, c: ChunkId)
    requires ForgottenIn(db, u, p, c)
    ensures ForgottenIn(AbortMultipart(db, v), u, p, c)
  {
    if v in db.uploads && v != u {
      var closed := db.(uploads := db.uploads[v := db.uploads[v].(state := Aborted)]);
      ForgottenFailParts(closed, PartsOf(db.parts, v), u, p, c);
    }
  }

  lemma ForgottenCreate(db: Db, v: UploadId, k: Key, u: UploadId, p: PartId, c: ChunkId)
    requires ForgottenIn(db, u, p, c)
    ensures ForgottenIn(CreateMultipart(db, v, k), u, p, c)
  {
  }

  lemma ForgottenCompletePart(db: Db, q: PartId, size: nat, count: nat, etag: string, u: UploadId, p: PartId,
                              c: ChunkId)
    requires ForgottenIn(db, u, p, c)
    ensures ForgottenIn(CompletePart(db, q, size, count, etag), u, p, c)
  {
  }

  lemma ForgottenMultipart(db: Db, s: MultipartStep, u: UploadId, p: PartId, c: ChunkId)
    requires ForgottenIn(db, u, p, c)
    ensures ForgottenIn(ApplyMultipart(db, s), u, p, c)
  {
    match s
    case DoCompleteMultipart(v, o, manifest) => ForgottenAssembly(db, v, o, manifest, u, p, c);
    case DoBeginPart(q, v, number) => ForgottenBegin(db, q, v, number, u, p, c);
    case DoAbortMultipart(v) => ForgottenAbortSession(db, v, u, p, c);
    case DoPurgeUploads(us) => ForgottenPurgeUploads(db, us, u, p, c);
    case DoCreateMultipart(v, k) => ForgottenCreate(db, v, k, u, p, c);
    case DoCompletePart(q, size, count, etag) => ForgottenCompletePart(db, q, size, count, etag, u, p, c);
  }

  lemma ForgottenPurgeUploads(db: Db, us: set<UploadId>, u: UploadId, p: PartId, c: ChunkId)
    requires ForgottenIn(db, u, p, c)
    ensures ForgottenIn(PurgeUploads(db, us), u, p, c)
  {
    assert c in OwnedByParts(db.chunks, PartsOf(db.parts, u));
  }

  lemma ForgottenPurge(db: Db, cs: set<ChunkId>, os: set<ObjectId>, u: UploadId, p: PartId, c: ChunkId)
    requires ForgottenIn(db, u, p, c)
    ensures ForgottenIn(PurgeReclaimed(db, cs, os), u, p, c)
  {
  }

  lemma ForgottenStep(db: Db, s: Step, u: UploadId, p: PartId, c: ChunkId)
    requires ForgottenIn(db, u, p, c)
    ensures ForgottenIn(Apply(db, s), u, p, c)
  {
    match s
    case OnUploads(t) => ForgottenUpload(db, t, u, p, c);
    case OnMultipart(m) => ForgottenMultipart(db, m, u, p, c);
    case OnGc(DoPurge(cs, os)) => ForgottenPurge(db, cs, os, u, p, c);
    case _ => assert ForgottenIn(Apply(db, s), u, p, c);
  }

  /**
   A chunk written to a part of a completed session, and not orphaned, belongs to nothing visible and
   stays for good: no run of any steps ever orphans it, drops it, or forgets its part or its session.
   */
  lemma {:induction false} ClosedSessionPinned(db: Db, steps: seq<Step>, u: UploadId, p: PartId, c: ChunkId)
    requires ForgottenIn(db, u, p, c)
    ensures ForgottenIn(Run(db, steps), u, p, c) && !Live(Run(db, steps), c)
    decreases |steps|
  {
    if steps != [] {
      var past := steps[..|steps| - 1];
      ClosedSessionPinned(db, past, u, p, c);
      ForgottenStep(Run(db, past), steps[|steps| - 1], u, p, c);
    }
  }

  /**
   After an assembly a part of the session still accepts chunks exactly when it was uploading, which
   an assembly without a manifest rules out.
   */
  lemma UnnamedPartStaysWritable(db: Db, u: UploadId, o: ObjectId, manifest: seq<PartRef>, p: PartId)
    requires AssemblyCommits(db, u, o, manifest) && p in PartsOf(db.parts, u)
    ensures Writable(CompleteMultipart(db, u, o, manifest), PartOwner(p)) <==> db.parts[p].state == PartUploading
    ensures manifest == [] ==> !Writable(CompleteMultipart(db, u, o, manifest), PartOwner(p))
  {
  }

  /**
   Such a part is how a chunk comes to be forgotten: whatever position the late writer asks for, the
   reservation succeeds and the chunk it gets belongs to a session that is over.
   */
  lemma LateChunkForgotten(db: Db, u: UploadId, o: ObjectId, manifest: seq<PartRef>, p: PartId, id: ChunkId,
                           index: nat, size: nat)
    requires AssemblyCommits(db, u, o, manifest) && p in PartsOf(db.parts, u) && db.parts[p].state == PartUploading
    requires id !in db.chunks && id != 0
    ensures var d := ReserveChunk(CompleteMultipart(db, u, o, manifest), id, PartOwner(p), index, size);
      exists c :: ForgottenIn(d, u, p, c) && d.chunks[c].index == index && d.chunks[c].state == Pending
  {
    ClosedByAssembly(db, u, o, manifest);
    UnnamedPartStaysWritable(db, u, o, manifest, p);
    ReservedOnClosed(CompleteMultipart(db, u, o, manifest), u, p, id, index, size);
  }

  lemma ReservedOnClosed(db: Db, u: UploadId, p: PartId, id: ChunkId, index: nat, size: nat)
    requires u in db.uploads && db.uploads[u].state == Completed && p in PartsOf(db.parts, u)
    requires Writable(db, PartOwner(p))
    requires id !in db.chunks && id != 0
    ensures var d := ReserveChunk(db, id, PartOwner(p), index, size);
      exists c :: ForgottenIn(d, u, p, c) && d.chunks[c].index == index && d.chunks[c].state == Pending
  {
    var d, taken := ReserveChunk(db, id, PartOwner(p), index, size), AtPosition(db.chunks, PartOwner(p), index);
    if taken == {} {
      assert ForgottenIn(d, u, p, id);
    } else {
      var c :| c in taken;
      assert ForgottenIn(d, u, p, c);
    }
  }

  lemma ClosedByAssembly(db: Db, u: UploadId, o: ObjectId, manifest: seq<PartRef>)
    requires AssemblyCommits(db, u, o, manifest)
    ensures var d := CompleteMultipart(db, u, o, manifest);
      u in d.uploads && d.uploads[u].state == Completed && d.parts == db.parts && d.chunks.Keys == db.chunks.Keys
  {
  }
}
