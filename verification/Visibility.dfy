/** What readers see: one whole version per key, swapped in a single step. */
module Visibility {
  import opened Tables
  import opened Transactions
  import opened Invariants

  /** The object a step makes the visible version of key `k`, if it does. */
  ghost function Published(db: Db, s: Step, k: Key): set<ObjectId> {
    match s
    case OnUploads(DoCompleteUpload(o, size, count)) =>
      if CompleteAccepted(db, o, count) && db.objects[o].key == k then {o} else {}
    case OnMultipart(DoCompleteMultipart(u, o, manifest)) =>
      if AssemblyCommits(db, u, o, manifest) && db.uploads[u].key == k then {o} else {}
    case _ => {}
  }

  /** The step is a client's request to delete key `k`. */
  predicate Deletes(s: Step, k: Key) {
    s == OnUploads(DoDeleteObject(k))
  }

  predicate SameObjects(db: Db, d: Db) {
    d == db.(nodes := d.nodes, uploads := d.uploads, parts := d.parts, chunks := d.chunks, available := d.available,
             replicas := d.replicas, deletions := d.deletions, jobs := d.jobs, serial := d.serial, now := d.now)
  }

  lemma VisibleFrame(db: Db, d: Db, k: Key)
    requires SameObjects(db, d)
    ensures CompleteVersions(d.objects, k) == CompleteVersions(db.objects, k)
  {
  }

  lemma StatesVisible(db: Db, os: set<ObjectId>, st: ObjectState, k: Key)
    requires st != Complete
    ensures CompleteVersions(SetObjectStates(db, os, st).objects, k) == CompleteVersions(db.objects, k) - os
  {
  }

  lemma ShowVisible(db: Db, o: ObjectId, size: nat, count: nat, k: Key)
    requires o in db.objects
    ensures CompleteVersions(Show(db, o, size, count).objects, k) ==
            if db.objects[o].key == k then {o} else CompleteVersions(db.objects, k) - {o}
  {
  }

  lemma DeleteVisible(db: Db, k: Key, q: Key)
    ensures CompleteVersions(DeleteObject(db, k).objects, q) == if q == k then {} else CompleteVersions(db.objects, q)
  {
    var prior := CompleteVersions(db.objects, k);
    var noted := SetObjectStates(db, prior, Retiring);
    StatesVisible(db, prior, Retiring, q);
    VisibleFrame(noted, RetireChunks(noted, OwnedByObjects(db.chunks, prior)), q);
    assert q != k ==> CompleteVersions(db.objects, q) - prior == CompleteVersions(db.objects, q);
  }

  lemma AbortVisible(db: Db, os: set<ObjectId>, k: Key)
    ensures CompleteVersions(AbortUploads(db, os).objects, k) == CompleteVersions(db.objects, k)
  {
    var hit := InFlight(db, os);
    StatesVisible(db, hit, Failed, k);
    assert CompleteVersions(db.objects, k) - hit == CompleteVersions(db.objects, k);
    var failed, cs := SetObjectStates(db, hit, Failed), OwnedByObjects(db.chunks, hit);
    VisibleFrame(failed, RetireChunks(OrphanChunks(failed, cs), cs), k);
  }

  lemma CompleteVisible(db: Db, o: ObjectId, size: nat, count: nat, k: Key)
    ensures CompleteVersions(CompleteUpload(db, o, size, count).objects, k) ==
            if CompleteAccepted(db, o, count) && db.objects[o].key == k then {o} else CompleteVersions(db.objects, k)
  {
    if CompleteAccepted(db, o, count) {
      ShowVisible(db, o, size, count, k);
      assert CompleteVersions(db.objects, k) - {o} == CompleteVersions(db.objects, k);
    }
  }

  lemma UploadVisible(db: Db, s: UploadStep, k: Key)
    requires s != DoDeleteObject(k)
    ensures CompleteVersions(ApplyUpload(db, s).objects, k) ==
      var shown := Published(db, OnUploads(s), k);
      if shown != {} then shown else CompleteVersions(db.objects, k)
  {
    match s
    case DoReserve(id, owner, index, size) => VisibleFrame(db, ReserveChunk(db, id, owner, index, size), k);
    case DoCommit(c, sum, size, ok, bad, min) => VisibleFrame(db, CommitChunk(db, c, sum, size, ok, bad, min), k);
    case DoBeginUpload(o, q) =>
    case DoCompleteUpload(o, size, count) => CompleteVisible(db, o, size, count, k);
    case DoAbortUploads(os) => AbortVisible(db, os, k);
    case DoDeleteObject(q) => DeleteVisible(db, q, k);
  }

  lemma AssembleVisible(db: Db, u: UploadId, o: ObjectId, k: Key)
    requires u in db.uploads && o !in db.objects
    ensures CompleteVersions(Assemble(db, u, o).objects, k) == CompleteVersions(db.objects, k)
    ensures Assemble(db, u, o).objects[o].key == db.uploads[u].key
  {
  }

  lemma AssembledVisible(db: Db, u: UploadId, o: ObjectId, size: nat, count: nat, k: Key)
    requires u in db.uploads && o !in db.objects
    ensures CompleteVersions(DiscardLeftovers(Show(Assemble(db, u, o), o, size, count), u).objects, k) ==
            if db.uploads[u].key == k then {o} else CompleteVersions(db.objects, k)
  {
    var a := Assemble(db, u, o);
    AssembleVisible(db, u, o, k);
    ShowVisible(a, o, size, count, k);
    assert CompleteVersions(db.objects, k) - {o} == CompleteVersions(db.objects, k);
    VisibleFrame(Show(a, o, size, count), DiscardLeftovers(Show(a, o, size, count), u), k);
  }

  lemma AssemblyVisible(db: Db, u: UploadId, o: ObjectId, manifest: seq<PartRef>, k: Key)
    requires AssemblyCommits(db, u, o, manifest)
    ensures CompleteVersions(CompleteMultipart(db, u, o, manifest).objects, k) ==
            if db.uploads[u].key == k then {o} else CompleteVersions(db.objects, k)
  {
    var ps := CompleteParts(db.parts, u);
    AssembledVisible(db, u, o, DeclaredSize(db.parts, ps), DeclaredChunks(db.parts, ps), k);
  }

  lemma MultipartVisible(db: Db, s: MultipartStep, k: Key)
    ensures CompleteVersions(ApplyMultipart(db, s).objects, k) ==
      var shown := Published(db, OnMultipart(s), k);
      if shown != {} then shown else CompleteVersions(db.objects, k)
  {
    match s
    case DoCreateMultipart(u, q) => VisibleFrame(db, CreateMultipart(db, u, q), k);
    case DoBeginPart(p, u, number) => VisibleFrame(db, BeginPart(db, p, u, number), k);
    case DoCompletePart(p, size, count, etag) => VisibleFrame(db, CompletePart(db, p, size, count, etag), k);
    case DoCompleteMultipart(u, o, manifest) =>
      if AssemblyCommits(db, u, o, manifest) {
        AssemblyVisible(db, u, o, manifest, k);
      }
    case DoAbortMultipart(u) => VisibleFrame(db, AbortMultipart(db, u), k);
    case DoPurgeUploads(us) => VisibleFrame(db, PurgeUploads(db, us), k);
  }

  lemma PurgeVisible(db: Db, cs: set<ChunkId>, os: set<ObjectId>, k: Key)
    ensures CompleteVersions(PurgeReclaimed(db, cs, os).objects, k) == CompleteVersions(db.objects, k)
  {
  }

  /**
   A key's visible version changes only old to new, in the publishing step itself, or to
   none, through a client's delete.
   */
  lemma StepVisible(db: Db, s: Step, k: Key)
    ensures CompleteVersions(Apply(db, s).objects, k) ==
            if Deletes(s, k) then {}
            else if Published(db, s, k) != {} then Published(db, s, k)
            else CompleteVersions(db.objects, k)
  {
    match s
    case OnReplicas(r) => VisibleFrame(db, ApplyReplica(db, r), k);
    case OnUploads(u) =>
      if Deletes(s, k) {
        DeleteVisible(db, k, k);
      } else {
        UploadVisible(db, u, k);
      }
    case OnMultipart(m) => MultipartVisible(db, m, k);
    case OnRepairs(j) => VisibleFrame(db, ApplyRepair(db, j), k);
    case OnGc(g) => GcVisible(db, g, k);
    case Tick(dt) => VisibleFrame(db, db.(now := db.now + dt), k);
  }

  lemma GcVisible(db: Db, s: GcStep, k: Key)
    ensures CompleteVersions(ApplyGc(db, s).objects, k) == CompleteVersions(db.objects, k)
  {
    match s
    case DoClaimDeletions(ls, lease) => VisibleFrame(db, ClaimDeletions(db, ls, lease), k);
    case DoFinishDeletion(l, serial) => VisibleFrame(db, FinishDeletion(db, l, serial), k);
    case DoFailDeletion(l, serial, backoff, max) => VisibleFrame(db, FailDeletion(db, l, serial, backoff, max), k);
    case DoPurge(cs, os) => PurgeVisible(db, cs, os, k);
  }

  /**
   From any reachable state on, a key that is readable stays readable under every run in
   which no client deletes it, and what is readable is always one whole version.
   */
  lemma {:induction false} NoGap(db: Db, steps: seq<Step>, k: Key)
    requires Inv(db) && CompleteVersions(db.objects, k) != {}
    requires forall i | 0 <= i < |steps| :: !Deletes(steps[i], k)
    ensures |CompleteVersions(Run(db, steps).objects, k)| == 1
    ensures forall o | o in CompleteVersions(Run(db, steps).objects, k) ::
              AllCommitted(Run(db, steps).chunks, ObjectOwner(o), Run(db, steps).objects[o].chunkCount)
    decreases |steps|
  {
    var d := Run(db, steps);
    if steps != [] {
      var shorter, s := steps[..|steps| - 1], steps[|steps| - 1];
      NoGap(db, shorter, k);
      StepVisible(Run(db, shorter), s, k);
    }
    RunInv(db, steps);
    VisibleWhole(d, k);
  }

  /** In a state satisfying the invariants a visible version is unique and whole. */
  lemma VisibleWhole(db: Db, k: Key)
    requires CatalogInv(db) && CompleteVersions(db.objects, k) != {}
    ensures |CompleteVersions(db.objects, k)| == 1
    ensures forall o | o in CompleteVersions(db.objects, k) ::
      AllCommitted(db.chunks, ObjectOwner(o), db.objects[o].chunkCount)
  {
    var o :| o in CompleteVersions(db.objects, k);
    assert CompleteVersions(db.objects, k) == {o};
    assert Settled(db, ObjectOwner(o));
  }
}
