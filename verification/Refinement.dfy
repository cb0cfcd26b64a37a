/** Every transaction does to every row exactly what the reference says. */
module Refinement {
  import opened Tables
  import opened Transactions
  import opened Trim
  import opened Reference
  import Orders
  import Effects
  import Sums

  // -------------------------------------------------------------------- the guards

  lemma HexMeans(s: string)
    ensures IsHexDigest(s) <==> HexDigest(s)
  {
    forall i | 0 <= i < |s| ensures s[i] in "0123456789abcdef" <==> '0' <= s[i] <= '9' || 'a' <= s[i] <= 'f' {
      HexChar(s[i]);
    }
  }

  lemma HexChar(c: char)
    ensures c in "0123456789abcdef" <==> '0' <= c <= '9' || 'a' <= c <= 'f'
  {
    var hex := "0123456789abcdef";
    assert forall i | 0 <= i < |hex| :: '0' <= hex[i] <= '9' || 'a' <= hex[i] <= 'f';
    if '0' <= c <= '9' {
      assert hex[c as int - '0' as int] == c;
    } else if 'a' <= c <= 'f' {
      assert hex[10 + c as int - 'a' as int] == c;
    }
  }

  /** The nodes whose copies count once the commit's rows are written. */
  lemma CommitNodes(db: Db, c: ChunkId, ok: set<NodeId>, bad: set<NodeId>)
    ensures AvailableNodes(CommitRows(db, c, ok, bad).replicas, c) == (AvailableNodes(db.replicas, c) - bad) + ok
  {
    forall n: NodeId {
      CommitRow(db, c, ok, bad, Loc(c, n));
    }
  }

  lemma WriteRow(db: Db, rows: map<Loc, ReplicaState>, gone: set<Loc>, l: Loc)
    ensures At(WriteReplicas(db, rows, gone).replicas, l) ==
      if l in rows then Is(rows[l]) else if l in gone then Absent else At(db.replicas, l)
  {
  }

  lemma OnNodes(c: ChunkId, ns: set<NodeId>, st: ReplicaState, l: Loc)
    ensures l in RowsOn(c, ns, st) <==> l.chunk == c && l.node in ns
    ensures l in RowsOn(c, ns, st) ==> RowsOn(c, ns, st)[l] == st
  {
    assert l.chunk == c ==> l == Loc(c, l.node);
  }

  lemma CommitRow(db: Db, c: ChunkId, ok: set<NodeId>, bad: set<NodeId>, l: Loc)
    ensures At(CommitRows(db, c, ok, bad).replicas, l) ==
      if l.chunk != c then At(db.replicas, l)
      else if l.node in ok then Is(Available)
      else if l.node in bad && l in db.replicas then Is(Unavailable)
      else At(db.replicas, l)
  {
    var noted := WriteReplicas(db, FailedRows(db, c, bad), {});
    WriteRow(db, FailedRows(db, c, bad), {}, l);
    WriteRow(noted, RowsOn(c, ok, Available), {}, l);
    OnNodes(c, ok, Available, l);
  }

  lemma CommitMeans(db: Db, c: ChunkId, sum: string, ok: set<NodeId>, bad: set<NodeId>, min: nat)
    ensures CommitAccepted(db, c, sum, ok, bad, min) <==> Commits(db, c, sum, ok, bad, min)
  {
    HexMeans(sum);
    CommitNodes(db, c, ok, bad);
  }

  lemma FullMeans(chunks: map<ChunkId, ChunkRow>, owner: Owner, count: nat)
    ensures AllCommitted(chunks, owner, count) <==> Full(chunks, owner, count)
  {
    assert Owned(chunks, owner) == set c | c in chunks && chunks[c].owner == owner;
  }

  lemma CompleteMeans(db: Db, o: ObjectId, count: nat)
    ensures CompleteAccepted(db, o, count) <==> Completes(db, o, count)
  {
    FullMeans(db.chunks, ObjectOwner(o), count);
  }

  lemma PartMeans(db: Db, p: PartId, count: nat)
    ensures CompletePartAccepted(db, p, count) <==> PartCompletes(db, p, count)
  {
    FullMeans(db.chunks, PartOwner(p), count);
  }

  lemma OpenMeans(db: Db, owner: Owner)
    ensures Writable(db, owner) <==> Open(db, owner)
  {
  }

  lemma FinishedMeans(db: Db, u: UploadId)
    ensures CompleteParts(db.parts, u) == set p | p in db.parts && Finished(db, u, p)
    ensures forall p :: p in CompleteParts(db.parts, u) <==> Finished(db, u, p)
    ensures Moved(db.parts, db.chunks, u) == set c | c in db.chunks && Ready(db, u, c)
  {
  }

  lemma TotalMeans(db: Db, u: UploadId)
    ensures DeclaredSize(db.parts, CompleteParts(db.parts, u)) == Total(db, u, Sizes(db))
    ensures DeclaredChunks(db.parts, CompleteParts(db.parts, u)) == Total(db, u, Counts(db))
  {
    FinishedMeans(db, u);
    var ps := CompleteParts(db.parts, u);
    Sums.SumSame(ps, SizeOf(db.parts), Sizes(db));
    Sums.SumSame(ps, ChunkCountOf(db.parts), Counts(db));
  }

  lemma ListsMeans(db: Db, u: UploadId, manifest: seq<PartRef>)
    requires manifest != []
    ensures ManifestMatches(db, u, manifest) <==> Lists(db, u, manifest)
  {
    FinishedMeans(db, u);
    var ps, less := CompleteParts(db.parts, u), ByNumber(db.parts);
    forall p | p in ps ensures Orders.Rank(less, ps, p) == |Lower(db, u, p)| {
      assert Orders.Before(less, ps, p) == Lower(db, u, p);
    }
  }

  lemma AssemblyMeans(db: Db, u: UploadId, o: ObjectId, manifest: seq<PartRef>)
    ensures AssemblyCommits(db, u, o, manifest) <==> Assembles(db, u, o, manifest)
  {
    FinishedMeans(db, u);
    TotalMeans(db, u);
    if manifest != [] {
      ListsMeans(db, u, manifest);
    }
  }

  // -------------------------------------------------------------- retiring chunks

  lemma RetireRow(db: Db, cs: set<ChunkId>, l: Loc)
    ensures At(RetireChunks(db, cs).replicas, l) ==
      if l in db.replicas && l.chunk in cs then Is(Deleting) else At(db.replicas, l)
  {
  }

  lemma RetireJob(db: Db, cs: set<ChunkId>, l: Loc)
    ensures var d := RetireChunks(db, cs);
      && (l in db.deletions ==> At(d.deletions, l) == At(db.deletions, l))
      && (l !in db.deletions ==>
            if l in db.replicas && l.chunk in cs && db.replicas[l] != Deleting
            then l in d.deletions && d.deletions[l] == DeletionRow(db.serial, 0, db.now) else l !in d.deletions)
  {
  }

  /** The chunks of the step's retirement are those the reference retires. */
  lemma DeleteRetires(db: Db, k: Key, c: ChunkId)
    ensures c in OwnedByObjects(db.chunks, CompleteVersions(db.objects, k)) <==>
      Retires(db, OnUploads(DoDeleteObject(k)), c)
  {
  }

  lemma CompleteRetires(db: Db, o: ObjectId, size: nat, count: nat, c: ChunkId)
    requires Completes(db, o, count)
    ensures c in OwnedByObjects(db.chunks, CompleteVersions(db.objects, db.objects[o].key) - {o}) <==>
      Retires(db, OnUploads(DoCompleteUpload(o, size, count)), c)
  {
  }

  lemma AbortRetires(db: Db, os: set<ObjectId>, c: ChunkId)
    ensures c in OwnedByObjects(db.chunks, InFlight(db, os)) <==> Retires(db, OnUploads(DoAbortUploads(os)), c)
    ensures c in OwnedByObjects(db.chunks, InFlight(db, os)) <==> Orphans(db, OnUploads(DoAbortUploads(os)), c)
  {
  }

  lemma BeginRetires(db: Db, p: PartId, u: UploadId, number: nat, c: ChunkId)
    requires Begins(db, p, u, number)
    ensures c in OwnedByParts(db.chunks, PriorAttempts(db.parts, u, number)) <==>
      Retires(db, OnMultipart(DoBeginPart(p, u, number)), c)
    ensures c in OwnedByParts(db.chunks, PriorAttempts(db.parts, u, number)) <==>
      Orphans(db, OnMultipart(DoBeginPart(p, u, number)), c)
  {
  }

  lemma AbortSessionRetires(db: Db, u: UploadId, c: ChunkId)
    requires Aborts(db, u)
    ensures c in OwnedByParts(db.chunks, PartsOf(db.parts, u)) <==> Retires(db, OnMultipart(DoAbortMultipart(u)), c)
    ensures c in OwnedByParts(db.chunks, PartsOf(db.parts, u)) <==> Orphans(db, OnMultipart(DoAbortMultipart(u)), c)
  {
  }

  // ------------------------------------------------------------------ replica rows

  lemma ReplicaRows(db: Db, s: ReplicaStep, l: Loc)
    ensures At(ApplyReplica(db, s).replicas, l) == NodeStatement(db, s, l)
  {
    match s
    case DoTrim(c, rf) => TrimRow(db, c, rf, l);
    case DoMarkCorrupt(k) => CorruptRow(db, k, l);
    case DoRecordTargets(c, ns) => TargetRow(db, c, ns, l);
    case DoPromote(k) => PromoteRow(db, k, l);
    case DoDropReplica(k) => WriteRow(db, map[], {k}, l);
    case DoSetNodeHealth(n, h) => HealthRow(db, n, h, l);
    case DoMarkStale(n) => WriteRow(db, Shifted(db, n, {Unavailable}, Stale), {}, l);
    case DoRecordNode(n, row) =>
    case DoQueueOrphan(k) =>
    case DoVerifyCounters =>
  }

  lemma PromoteRow(db: Db, k: Loc, l: Loc)
    ensures At(PromoteVerified(db, k).replicas, l) == NodeStatement(db, DoPromote(k), l)
  {
    WriteRow(db, map[k := Available], {}, l);
  }

  lemma HealthRow(db: Db, n: NodeId, h: Health, l: Loc)
    ensures At(SetNodeHealth(db, n, h).replicas, l) == NodeStatement(db, DoSetNodeHealth(n, h), l)
  {
    if h == Dead {
      WriteRow(NoteHealth(db, n, h), Shifted(db, n, {Available, Writing}, Unavailable), {}, l);
    }
  }

  lemma TargetRow(db: Db, c: ChunkId, ns: set<NodeId>, l: Loc)
    ensures At(RecordTargets(db, c, ns).replicas, l) == NodeStatement(db, DoRecordTargets(c, ns), l)
  {
    WriteRow(db, RowsOn(c, ns, Writing), {}, l);
    OnNodes(c, ns, Writing, l);
  }

  lemma CorruptRow(db: Db, k: Loc, l: Loc)
    ensures At(MarkCorrupt(db, k).replicas, l) == NodeStatement(db, DoMarkCorrupt(k), l)
  {
    WriteRow(db, map[k := Corrupt], {}, l);
  }

  lemma SurplusMeans(db: Db, c: ChunkId, rf: nat, n: NodeId)
    requires c in db.chunks && c in db.available && db.available[c] > rf
    ensures n in Surplus(db, c, rf) <==> Demotes(db, c, rf, n)
  {
    TopIsEmptiest(db.nodes, AvailableNodes(db.replicas, c), rf);
  }

  lemma TrimRow(db: Db, c: ChunkId, rf: nat, l: Loc)
    ensures At(TrimChunk(db, c, rf).replicas, l) == NodeStatement(db, DoTrim(c, rf), l)
  {
    if c in db.chunks && c in db.available && db.available[c] > rf {
      var victims := Surplus(db, c, rf);
      SurplusMeans(db, c, rf, l.node);
      DemotedRow(db, c, victims, l);
    }
  }

  lemma DemotedRow(db: Db, c: ChunkId, victims: set<NodeId>, l: Loc)
    requires victims <= AvailableNodes(db.replicas, c)
    ensures At(Demote(db, c, victims).replicas, l) ==
      if l.chunk == c && l.node in victims then Is(Deleting) else At(db.replicas, l)
  {
    DemoteRows(db, c, victims);
    assert l.chunk == c ==> l == Loc(c, l.node);
  }

  lemma UploadRows(db: Db, s: UploadStep, l: Loc)
    ensures At(ApplyUpload(db, s).replicas, l) == ReplicaCell(db, OnUploads(s), l)
  {
    match s
    case DoReserve(id, owner, index, size) => ReserveRow(db, id, owner, index, size, l);
    case DoBeginUpload(o, k) =>
    case DoCommit(c, sum, size, ok, bad, min) => CommitChunkRow(db, c, sum, size, ok, bad, min, l);
    case DoCompleteUpload(o, size, count) =>
      CompleteMeans(db, o, count);
      if Completes(db, o, count) {
        CompleteRow(db, o, size, count, l);
      }
    case DoAbortUploads(os) => AbortRow(db, os, l);
    case DoDeleteObject(k) => DeleteRow(db, k, l);
  }

  lemma ReserveRow(db: Db, id: ChunkId, owner: Owner, index: nat, size: nat, l: Loc)
    ensures At(ReserveChunk(db, id, owner, index, size).replicas, l) == At(db.replicas, l)
  {
  }

  lemma CommitChunkRow(db: Db, c: ChunkId, sum: string, size: nat, ok: set<NodeId>, bad: set<NodeId>, min: nat, l: Loc)
    ensures At(CommitChunk(db, c, sum, size, ok, bad, min).replicas, l) == CommittedRow(db, c, sum, ok, bad, min, l)
  {
    CommitMeans(db, c, sum, ok, bad, min);
    CommitRow(db, c, ok, bad, l);
  }

  lemma CompleteRow(db: Db, o: ObjectId, size: nat, count: nat, l: Loc)
    requires Completes(db, o, count)
    ensures At(Show(db, o, size, count).replicas, l) == ReplicaCell(db, OnUploads(DoCompleteUpload(o, size, count)), l)
  {
    var prior := CompleteVersions(db.objects, db.objects[o].key) - {o};
    CompleteRetires(db, o, size, count, l.chunk);
    RetireRow(SetObjectStates(db, prior, Retiring), OwnedByObjects(db.chunks, prior), l);
  }

  lemma AbortRow(db: Db, os: set<ObjectId>, l: Loc)
    ensures At(AbortUploads(db, os).replicas, l) == ReplicaCell(db, OnUploads(DoAbortUploads(os)), l)
  {
    var hit := InFlight(db, os);
    var cs := OwnedByObjects(db.chunks, hit);
    AbortRetires(db, os, l.chunk);
    RetireRow(OrphanChunks(SetObjectStates(db, hit, Failed), cs), cs, l);
  }

  lemma DeleteRow(db: Db, k: Key, l: Loc)
    ensures At(DeleteObject(db, k).replicas, l) == ReplicaCell(db, OnUploads(DoDeleteObject(k)), l)
  {
    var prior := CompleteVersions(db.objects, k);
    DeleteRetires(db, k, l.chunk);
    RetireRow(SetObjectStates(db, prior, Retiring), OwnedByObjects(db.chunks, prior), l);
  }

  lemma RepairRows(db: Db, s: RepairStep, l: Loc)
    ensures At(ApplyRepair(db, s).replicas, l) == ReplicaCell(db, OnRepairs(s), l)
  {
  }

  lemma GcRows(db: Db, s: GcStep, l: Loc)
    ensures At(ApplyGc(db, s).replicas, l) == CollectedRow(db, s, l)
  {
    match s
    case DoClaimDeletions(ls, lease) =>
    case DoFinishDeletion(k, serial) => Effects.FinishRows(db, k, serial);
    case DoFailDeletion(k, serial, backoff, max) => FailedRow(db, k, serial, backoff, max, l);
    case DoPurge(cs, os) =>
  }

  lemma FailedRow(db: Db, k: Loc, serial: nat, backoff: nat, max: nat, l: Loc)
    ensures At(FailDeletion(db, k, serial, backoff, max).replicas, l) ==
      CollectedRow(db, DoFailDeletion(k, serial, backoff, max), l)
  {
    if GivesUp(db, k, serial, max) {
      Effects.ExpireRows(db, k, serial);
    }
  }

  // ------------------------------------------------------------- rows and multipart

  lemma FailPartsRow(db: Db, ps: set<PartId>, l: Loc)
    ensures At(FailParts(db, ps).replicas, l) ==
      if l in db.replicas && l.chunk in OwnedByParts(db.chunks, ps) then Is(Deleting) else At(db.replicas, l)
  {
    var cs := OwnedByParts(db.chunks, ps);
    RetireRow(OrphanChunks(SetPartsFailed(db, ps), cs), cs, l);
  }

  lemma BeginPartRow(db: Db, p: PartId, u: UploadId, number: nat, l: Loc)
    ensures At(BeginPart(db, p, u, number).replicas, l) == ReplicaCell(db, OnMultipart(DoBeginPart(p, u, number)), l)
  {
    if Begins(db, p, u, number) {
      BeginRetires(db, p, u, number, l.chunk);
      FailPartsRow(db, PriorAttempts(db.parts, u, number), l);
    }
  }

  lemma AbortSessionRow(db: Db, u: UploadId, l: Loc)
    ensures At(AbortMultipart(db, u).replicas, l) == ReplicaCell(db, OnMultipart(DoAbortMultipart(u)), l)
  {
    if Aborts(db, u) {
      AbortSessionRetires(db, u, l.chunk);
      FailPartsRow(db.(uploads := db.uploads[u := db.uploads[u].(state := Aborted)]), PartsOf(db.parts, u), l);
    }
  }

  /** Which objects an assembly replaces. */
  lemma AssembledObjects(db: Db, u: UploadId, o: ObjectId, manifest: seq<PartRef>, v: ObjectId)
    requires Assembles(db, u, o, manifest)
    ensures var a := Assemble(db, u, o);
      && o in a.objects && a.objects[o].key == db.uploads[u].key && a.parts == db.parts
      && (v in CompleteVersions(a.objects, db.uploads[u].key) - {o} <==>
            EndsObject(db, OnMultipart(DoCompleteMultipart(u, o, manifest)), v))
  {
  }

  /** Whose the chunks are once an assembly has taken its own. */
  lemma AssembledOwners(db: Db, u: UploadId, o: ObjectId, manifest: seq<PartRef>, c: ChunkId)
    requires Assembles(db, u, o, manifest)
    ensures var a := Assemble(db, u, o);
      && (c in a.chunks <==> c in db.chunks)
      && (c in db.chunks ==>
            var taken := Takes(db, OnMultipart(DoCompleteMultipart(u, o, manifest)), c);
            a.chunks[c].owner == if taken then ObjectOwner(o) else db.chunks[c].owner)
  {
    MovedMeans(db, u, o, manifest, c);
  }

  /** The two groups of chunks an assembly retires: of the version it replaces, and left on the parts. */
  lemma AssembledGroups(db: Db, u: UploadId, o: ObjectId, manifest: seq<PartRef>, c: ChunkId)
    requires Assembles(db, u, o, manifest)
    ensures var a, s := Assemble(db, u, o), OnMultipart(DoCompleteMultipart(u, o, manifest));
      var prior := CompleteVersions(a.objects, db.uploads[u].key) - {o};
      && o in a.objects && a.objects[o].key == db.uploads[u].key && a.parts == db.parts
      && (c in OwnedByObjects(a.chunks, prior) <==>
            c in db.chunks && db.chunks[c].owner.ObjectOwner? && EndsObject(db, s, db.chunks[c].owner.oid))
      && (c in OwnedByParts(a.chunks, PartsOf(a.parts, u)) <==> LeavesBehind(db, s, c))
  {
    var a, s := Assemble(db, u, o), OnMultipart(DoCompleteMultipart(u, o, manifest));
    var prior := CompleteVersions(a.objects, db.uploads[u].key) - {o};
    AssembledOwners(db, u, o, manifest, c);
    AssembledObjects(db, u, o, manifest, o);
    if c in db.chunks && db.chunks[c].owner.ObjectOwner? {
      AssembledObjects(db, u, o, manifest, db.chunks[c].owner.oid);
    }
    GroupOf(a, prior, u, c);
  }

  lemma GroupOf(a: Db, prior: set<ObjectId>, u: UploadId, c: ChunkId)
    ensures c in OwnedByObjects(a.chunks, prior) <==>
      c in a.chunks && a.chunks[c].owner.ObjectOwner? && a.chunks[c].owner.oid in prior
    ensures c in OwnedByParts(a.chunks, PartsOf(a.parts, u)) <==>
      && c in a.chunks && a.chunks[c].owner.PartOwner? && a.chunks[c].owner.pid in a.parts
      && a.parts[a.chunks[c].owner.pid].upload == u
  {
  }

  lemma MovedMeans(db: Db, u: UploadId, o: ObjectId, manifest: seq<PartRef>, c: ChunkId)
    requires Assembles(db, u, o, manifest)
    ensures c in Moved(db.parts, db.chunks, u) <==> Takes(db, OnMultipart(DoCompleteMultipart(u, o, manifest)), c)
  {
  }

  lemma AssemblyRetires(db: Db, u: UploadId, o: ObjectId, manifest: seq<PartRef>, c: ChunkId)
    requires Assembles(db, u, o, manifest)
    ensures var s := OnMultipart(DoCompleteMultipart(u, o, manifest));
      && (Orphans(db, s, c) <==> LeavesBehind(db, s, c))
      && (Retires(db, s, c) <==>
            || LeavesBehind(db, s, c)
            || (c in db.chunks && db.chunks[c].owner.ObjectOwner? && EndsObject(db, s, db.chunks[c].owner.oid)))
  {
  }

  lemma TwiceRetired(db: Db, a: Db, o: ObjectId, size: nat, count: nat, u: UploadId, l: Loc)
    requires o in a.objects && a.replicas == db.replicas
    ensures var prior := CompleteVersions(a.objects, a.objects[o].key) - {o};
      At(DiscardLeftovers(Show(a, o, size, count), u).replicas, l) ==
        if l in db.replicas && l.chunk in OwnedByObjects(a.chunks, prior) + OwnedByParts(a.chunks, PartsOf(a.parts, u))
        then Is(Deleting) else At(db.replicas, l)
  {
    var prior := CompleteVersions(a.objects, a.objects[o].key) - {o};
    var shown := Show(a, o, size, count);
    RetireRow(SetObjectStates(a, prior, Retiring), OwnedByObjects(a.chunks, prior), l);
    RetireRow(shown, OwnedByParts(shown.chunks, PartsOf(shown.parts, u)), l);
  }

  lemma AssemblyRow(db: Db, u: UploadId, o: ObjectId, manifest: seq<PartRef>, l: Loc)
    ensures At(CompleteMultipart(db, u, o, manifest).replicas, l) ==
      ReplicaCell(db, OnMultipart(DoCompleteMultipart(u, o, manifest)), l)
  {
    AssemblyMeans(db, u, o, manifest);
    if Assembles(db, u, o, manifest) {
      var ps := CompleteParts(db.parts, u);
      AssembledGroups(db, u, o, manifest, l.chunk);
      AssemblyRetires(db, u, o, manifest, l.chunk);
      TwiceRetired(db, Assemble(db, u, o), o, DeclaredSize(db.parts, ps), DeclaredChunks(db.parts, ps), u, l);
    }
  }

  lemma MultipartRows(db: Db, s: MultipartStep, l: Loc)
    ensures At(ApplyMultipart(db, s).replicas, l) == ReplicaCell(db, OnMultipart(s), l)
  {
    match s
    case DoBeginPart(p, u, number) => BeginPartRow(db, p, u, number, l);
    case DoAbortMultipart(u) => AbortSessionRow(db, u, l);
    case DoCompleteMultipart(u, o, manifest) => AssemblyRow(db, u, o, manifest, l);
    case DoCreateMultipart(_, _) =>
    case DoCompletePart(_, _, _, _) =>
    case DoPurgeUploads(_) =>
  }

  lemma Rows(db: Db, s: Step, l: Loc)
    ensures At(Apply(db, s).replicas, l) == ReplicaCell(db, s, l)
  {
    match s
    case OnReplicas(r) => ReplicaRows(db, r, l);
    case OnUploads(u) => UploadRows(db, u, l);
    case OnMultipart(m) => MultipartRows(db, m, l);
    case OnRepairs(j) => RepairRows(db, j, l);
    case OnGc(g) => GcRows(db, g, l);
    case Tick(_) =>
  }

  // ----------------------------------------------------------------- deletion jobs

  /** Queueing here exactly where asked, and nowhere a job was. */
  ghost predicate QueuedIff(db: Db, d: Db, asked: bool, l: Loc) {
    if l !in db.deletions && asked then l in d.deletions && Fresh(db, d.deletions[l])
    else At(d.deletions, l) == At(db.deletions, l)
  }

  lemma InsertJob(db: Db, ls: set<Loc>, l: Loc)
    ensures QueuedIff(db, InsertDeletions(db, ls), l in ls, l)
  {
  }

  lemma RetiredJob(db: Db, cs: set<ChunkId>, l: Loc)
    ensures QueuedIff(db, RetireChunks(db, cs), l.chunk in cs && l in db.replicas && db.replicas[l] != Deleting, l)
  {
    RetireJob(db, cs, l);
  }

  lemma TrimJob(db: Db, c: ChunkId, rf: nat, l: Loc)
    ensures QueuedIff(db, TrimChunk(db, c, rf), Queues(db, OnReplicas(DoTrim(c, rf)), l), l)
  {
    if c in db.chunks && c in db.available && db.available[c] > rf {
      var victims := Surplus(db, c, rf);
      var demoted := WriteReplicas(db, RowsOn(c, victims, Deleting), {});
      SurplusMeans(db, c, rf, l.node);
      WriteRow(db, RowsOn(c, victims, Deleting), {}, l);
      OnNodes(c, victims, Deleting, l);
      InsertJob(demoted, DeletingRows(demoted, c), l);
    }
  }

  lemma ReplicaJobs(db: Db, s: ReplicaStep, l: Loc)
    ensures DeletionMatches(db, ApplyReplica(db, s), OnReplicas(s), l)
  {
    match s
    case DoTrim(c, rf) => TrimJob(db, c, rf, l);
    case DoMarkCorrupt(k) => CorruptJob(db, k, l);
    case DoQueueOrphan(k) => OrphanJob(db, k, l);
    case _ => StatementJobs(db, s, l);
  }

  lemma OrphanJob(db: Db, k: Loc, l: Loc)
    ensures QueuedIff(db, QueueOrphan(db, k), Queues(db, OnReplicas(DoQueueOrphan(k)), l), l)
  {
    InsertJob(db, {k}, l);
  }

  lemma StatementJobs(db: Db, s: ReplicaStep, l: Loc)
    requires !s.DoTrim? && !s.DoMarkCorrupt? && !s.DoQueueOrphan?
    ensures DeletionMatches(db, ApplyReplica(db, s), OnReplicas(s), l)
  {
    StatementKeepsJobs(db, s);
    StatementAsksNothing(db, s, ApplyReplica(db, s), l);
  }

  lemma StatementKeepsJobs(db: Db, s: ReplicaStep)
    requires !s.DoTrim? && !s.DoMarkCorrupt? && !s.DoQueueOrphan?
    ensures ApplyReplica(db, s).deletions == db.deletions
  {
    match s
    case DoSetNodeHealth(n, h) => HealthKeepsJobs(db, n, h);
    case DoRecordTargets(c, ns) => TargetsKeepJobs(db, c, ns);
    case _ =>
  }

  lemma HealthKeepsJobs(db: Db, n: NodeId, h: Health)
    ensures SetNodeHealth(db, n, h).deletions == db.deletions
  {
  }

  lemma TargetsKeepJobs(db: Db, c: ChunkId, ns: set<NodeId>)
    ensures RecordTargets(db, c, ns).deletions == db.deletions
  {
  }

  lemma StatementAsksNothing(db: Db, s: ReplicaStep, d: Db, l: Loc)
    requires !s.DoTrim? && !s.DoMarkCorrupt? && !s.DoQueueOrphan? && d.deletions == db.deletions
    ensures DeletionMatches(db, d, OnReplicas(s), l)
  {
  }

  lemma CorruptJob(db: Db, k: Loc, l: Loc)
    ensures QueuedIff(db, MarkCorrupt(db, k), l == k && k.chunk in db.chunks, l)
  {
    InsertJob(db, {k}, l);
    InsertJob(SetReplica(db, k, Corrupt), {k}, l);
  }

  lemma CompleteJob(db: Db, o: ObjectId, size: nat, count: nat, l: Loc)
    ensures DeletionMatches(db, CompleteUpload(db, o, size, count), OnUploads(DoCompleteUpload(o, size, count)), l)
  {
    CompleteMeans(db, o, count);
    if Completes(db, o, count) {
      var prior := CompleteVersions(db.objects, db.objects[o].key) - {o};
      CompleteRetires(db, o, size, count, l.chunk);
      RetiredJob(SetObjectStates(db, prior, Retiring), OwnedByObjects(db.chunks, prior), l);
    }
  }

  lemma AbortJob(db: Db, os: set<ObjectId>, l: Loc)
    ensures DeletionMatches(db, AbortUploads(db, os), OnUploads(DoAbortUploads(os)), l)
  {
    var hit := InFlight(db, os);
    var cs := OwnedByObjects(db.chunks, hit);
    AbortRetires(db, os, l.chunk);
    RetiredJob(OrphanChunks(SetObjectStates(db, hit, Failed), cs), cs, l);
  }

  lemma DeleteJob(db: Db, k: Key, l: Loc)
    ensures DeletionMatches(db, DeleteObject(db, k), OnUploads(DoDeleteObject(k)), l)
  {
    var prior := CompleteVersions(db.objects, k);
    DeleteRetires(db, k, l.chunk);
    RetiredJob(SetObjectStates(db, prior, Retiring), OwnedByObjects(db.chunks, prior), l);
  }

  lemma UploadJobs(db: Db, s: UploadStep, l: Loc)
    ensures DeletionMatches(db, ApplyUpload(db, s), OnUploads(s), l)
  {
    match s
    case DoCompleteUpload(o, size, count) => CompleteJob(db, o, size, count, l);
    case DoAbortUploads(os) => AbortJob(db, os, l);
    case DoDeleteObject(k) => DeleteJob(db, k, l);
    case DoReserve(_, _, _, _) => WriteJobs(db, s, l);
    case DoCommit(_, _, _, _, _, _) => WriteJobs(db, s, l);
    case DoBeginUpload(_, _) => WriteJobs(db, s, l);
  }

  lemma WriteJobs(db: Db, s: UploadStep, l: Loc)
    requires s.DoReserve? || s.DoCommit? || s.DoBeginUpload?
    ensures DeletionMatches(db, ApplyUpload(db, s), OnUploads(s), l)
  {
    WriteKeepsJobs(db, s);
    WriteAsksNothing(db, s, ApplyUpload(db, s), l);
  }

  lemma WriteKeepsJobs(db: Db, s: UploadStep)
    requires s.DoReserve? || s.DoCommit? || s.DoBeginUpload?
    ensures ApplyUpload(db, s).deletions == db.deletions
  {
  }

  lemma WriteAsksNothing(db: Db, s: UploadStep, d: Db, l: Loc)
    requires (s.DoReserve? || s.DoCommit? || s.DoBeginUpload?) && d.deletions == db.deletions
    ensures DeletionMatches(db, d, OnUploads(s), l)
  {
  }

  lemma FailPartsJob(db: Db, ps: set<PartId>, l: Loc)
    ensures QueuedIff(db, FailParts(db, ps),
                      l.chunk in OwnedByParts(db.chunks, ps) && l in db.replicas && db.replicas[l] != Deleting, l)
  {
    var cs := OwnedByParts(db.chunks, ps);
    RetiredJob(OrphanChunks(SetPartsFailed(db, ps), cs), cs, l);
  }

  lemma TwiceQueued(db: Db, a: Db, o: ObjectId, size: nat, count: nat, u: UploadId, l: Loc)
    requires o in a.objects && a.replicas == db.replicas && a.deletions == db.deletions && a.serial == db.serial
    requires a.now == db.now
    ensures var prior := CompleteVersions(a.objects, a.objects[o].key) - {o};
      QueuedIff(db, DiscardLeftovers(Show(a, o, size, count), u),
                && l.chunk in OwnedByObjects(a.chunks, prior) + OwnedByParts(a.chunks, PartsOf(a.parts, u))
                && l in db.replicas && db.replicas[l] != Deleting, l)
  {
    var prior := CompleteVersions(a.objects, a.objects[o].key) - {o};
    var shown := Show(a, o, size, count);
    var noted := SetObjectStates(a, prior, Retiring);
    var mine, left := OwnedByObjects(a.chunks, prior), OwnedByParts(shown.chunks, PartsOf(shown.parts, u));
    RetiredJob(noted, mine, l);
    RetireRow(noted, mine, l);
    RetiredJob(shown, left, l);
    QueuedTwice(db, shown, RetireChunks(shown, left),
                l.chunk in mine && l in db.replicas && db.replicas[l] != Deleting,
                l.chunk in left && l in shown.replicas && shown.replicas[l] != Deleting, l);
  }

  lemma QueuedTwice(db: Db, m: Db, d: Db, first: bool, second: bool, l: Loc)
    requires QueuedIff(db, m, first, l) && QueuedIff(m, d, second, l) && m.now == db.now && db.serial <= m.serial
    ensures QueuedIff(db, d, first || second, l)
  {
  }

  lemma AssemblyJob(db: Db, u: UploadId, o: ObjectId, manifest: seq<PartRef>, l: Loc)
    ensures var s := OnMultipart(DoCompleteMultipart(u, o, manifest));
      DeletionMatches(db, CompleteMultipart(db, u, o, manifest), s, l)
  {
    AssemblyMeans(db, u, o, manifest);
    if Assembles(db, u, o, manifest) {
      var ps := CompleteParts(db.parts, u);
      AssembledGroups(db, u, o, manifest, l.chunk);
      AssemblyRetires(db, u, o, manifest, l.chunk);
      TwiceQueued(db, Assemble(db, u, o), o, DeclaredSize(db.parts, ps), DeclaredChunks(db.parts, ps), u, l);
    }
  }

  lemma BeginJob(db: Db, p: PartId, u: UploadId, number: nat, l: Loc)
    ensures DeletionMatches(db, BeginPart(db, p, u, number), OnMultipart(DoBeginPart(p, u, number)), l)
  {
    if Begins(db, p, u, number) {
      BeginRetires(db, p, u, number, l.chunk);
      FailPartsJob(db, PriorAttempts(db.parts, u, number), l);
    }
  }

  lemma AbortSessionJob(db: Db, u: UploadId, l: Loc)
    ensures DeletionMatches(db, AbortMultipart(db, u), OnMultipart(DoAbortMultipart(u)), l)
  {
    if Aborts(db, u) {
      AbortSessionRetires(db, u, l.chunk);
      FailPartsJob(db.(uploads := db.uploads[u := db.uploads[u].(state := Aborted)]), PartsOf(db.parts, u), l);
    }
  }

  lemma MultipartJobs(db: Db, s: MultipartStep, l: Loc)
    ensures DeletionMatches(db, ApplyMultipart(db, s), OnMultipart(s), l)
  {
    match s
    case DoBeginPart(p, u, number) => BeginJob(db, p, u, number, l);
    case DoAbortMultipart(u) => AbortSessionJob(db, u, l);
    case DoCompleteMultipart(u, o, manifest) => AssemblyJob(db, u, o, manifest, l);
    case DoCreateMultipart(_, _) =>
    case DoCompletePart(_, _, _, _) =>
    case DoPurgeUploads(_) =>
  }

  lemma ClaimedJob(db: Db, ls: set<Loc>, lease: nat, l: Loc)
    ensures At(ClaimDeletions(db, ls, lease).deletions, l) == DeletionCell(db, OnGc(DoClaimDeletions(ls, lease)), l)
  {
  }

  lemma FinishedJob(db: Db, k: Loc, serial: nat, l: Loc)
    ensures At(FinishDeletion(db, k, serial).deletions, l) == DeletionCell(db, OnGc(DoFinishDeletion(k, serial)), l)
  {
  }

  lemma ExpiredJobs(db: Db, k: Loc, serial: nat)
    requires k in db.deletions && db.deletions[k].serial == serial
    ensures ExpireDeletion(db, k, serial).deletions == db.deletions - {k}
  {
  }

  lemma FailedJobs(db: Db, k: Loc, serial: nat, backoff: nat, max: nat)
    ensures FailDeletion(db, k, serial, backoff, max).deletions ==
      if k !in db.deletions || db.deletions[k].serial != serial then db.deletions
      else if db.deletions[k].attempts >= max then db.deletions - {k}
      else db.deletions[k := DeletionRow(serial, db.deletions[k].attempts, db.now + backoff)]
  {
    if k in db.deletions && db.deletions[k].serial == serial {
      ExpiredJobs(db, k, serial);
    }
  }

  lemma FailedJob(db: Db, k: Loc, serial: nat, backoff: nat, max: nat, l: Loc)
    ensures At(FailDeletion(db, k, serial, backoff, max).deletions, l) ==
      DeletionCell(db, OnGc(DoFailDeletion(k, serial, backoff, max)), l)
  {
    FailedJobs(db, k, serial, backoff, max);
  }

  lemma GcJobs(db: Db, s: GcStep, l: Loc)
    ensures DeletionMatches(db, ApplyGc(db, s), OnGc(s), l)
  {
    assert !Queues(db, OnGc(s), l);
    match s
    case DoClaimDeletions(ls, lease) => ClaimedJob(db, ls, lease, l);
    case DoFinishDeletion(k, serial) => FinishedJob(db, k, serial, l);
    case DoFailDeletion(k, serial, backoff, max) => FailedJob(db, k, serial, backoff, max, l);
    case DoPurge(cs, os) =>
  }

  lemma DeletionJobs(db: Db, s: Step, l: Loc)
    ensures DeletionMatches(db, Apply(db, s), s, l)
  {
    match s
    case OnReplicas(r) => ReplicaJobs(db, r, l);
    case OnUploads(u) => UploadJobs(db, u, l);
    case OnMultipart(m) => MultipartJobs(db, m, l);
    case OnRepairs(j) =>
    case OnGc(g) => GcJobs(db, g, l);
    case Tick(_) =>
  }
}
