/** What writing chunks and finishing parts do to their rows, what a retry holds up, and what a finished part keeps. */
module Writing {
  import opened Tables
  import opened Transactions
  import opened Invariants
  import opened Reference
  import Refinement
  import RefinedCatalog
  import Uploads

  // ------------------------------------------------------------------- one commit

  /** The commit's outcome row by row; a refused one leaves the tables as they were. */
  ghost predicate Committing(db: Db, d: Db, c: ChunkId, sum: string, size: nat, ok: set<NodeId>, bad: set<NodeId>,
                             min: nat) {
    if c in db.chunks && ok <= db.nodes.Keys && HexDigest(sum)
       && |(AvailableNodes(db.replicas, c) - bad) + ok| >= min
    then
      && d.chunks == db.chunks[c := ChunkRow(db.chunks[c].owner, db.chunks[c].index, size, sum, Committed)]
      && (forall n :: At(d.replicas, Loc(c, n)) ==
            if n in ok then Is(Available)
            else if n in bad && Loc(c, n) in db.replicas then Is(Unavailable)
            else At(db.replicas, Loc(c, n)))
      && (forall l: Loc | l.chunk != c :: At(d.replicas, l) == At(db.replicas, l))
      && d == db.(chunks := d.chunks, replicas := d.replicas, available := d.available)
    else d == db
  }

  /** Acknowledged targets are AVAILABLE, failed ones with a row UNAVAILABLE, and no other row moves. */
  lemma CommitExact(db: Db, c: ChunkId, sum: string, size: nat, ok: set<NodeId>, bad: set<NodeId>, min: nat)
    ensures Committing(db, CommitChunk(db, c, sum, size, ok, bad, min), c, sum, size, ok, bad, min)
  {
    Refinement.CommitMeans(db, c, sum, ok, bad, min);
    if Commits(db, c, sum, ok, bad, min) {
      var rows := CommitRows(db, c, ok, bad);
      forall l ensures At(rows.replicas, l) ==
          if l.chunk != c then At(db.replicas, l)
          else if l.node in ok then Is(Available)
          else if l.node in bad && l in db.replicas then Is(Unavailable)
          else At(db.replicas, l) {
        Refinement.CommitRow(db, c, ok, bad, l);
      }
    }
  }

  lemma LastMissing(db: Db, d: Db, o: ObjectId, c: ChunkId, row: ChunkRow, count: nat)
    requires Open(db, ObjectOwner(o)) && c in db.chunks && db.chunks[c].owner == row.owner == ObjectOwner(o)
    requires d.objects == db.objects && d.chunks == db.chunks[c := row] && row.state == Committed
    ensures Completes(d, o, count) <==>
      && (forall x | x in db.chunks && x != c && db.chunks[x].owner == ObjectOwner(o) ::
            db.chunks[x].state == Committed)
      && |set x | x in db.chunks && db.chunks[x].owner == ObjectOwner(o)| == count
  {
    var mine := set x | x in db.chunks && db.chunks[x].owner == ObjectOwner(o);
    assert mine == set x | x in d.chunks && d.chunks[x].owner == ObjectOwner(o);
    forall x | x in mine && x != c ensures d.chunks[x] == db.chunks[x] {
    }
    assert Full(d.chunks, ObjectOwner(o), count) <==>
      (forall x | x in mine && x != c :: d.chunks[x].state == Committed) && |mine| == count;
  }

  /** An accepted commit lets an upload complete exactly when it was the last chunk missing. */
  lemma CommitCompletes(db: Db, d: Db, o: ObjectId, c: ChunkId, sum: string, size: nat, ok: set<NodeId>,
                        bad: set<NodeId>, min: nat, count: nat)
    requires Commits(db, c, sum, ok, bad, min) && Open(db, ObjectOwner(o)) && db.chunks[c].owner == ObjectOwner(o)
    requires d == CommitChunk(db, c, sum, size, ok, bad, min)
    ensures Completes(d, o, count) <==>
      && (forall x | x in db.chunks && x != c && db.chunks[x].owner == ObjectOwner(o) ::
            db.chunks[x].state == Committed)
      && |set x | x in db.chunks && db.chunks[x].owner == ObjectOwner(o)| == count
  {
    CommitRow(db, c, sum, size, ok, bad, min);
    LastMissing(db, d, o, c, ChunkRow(db.chunks[c].owner, db.chunks[c].index, size, sum, Committed), count);
  }

  lemma CommitRow(db: Db, c: ChunkId, sum: string, size: nat, ok: set<NodeId>, bad: set<NodeId>, min: nat)
    requires Commits(db, c, sum, ok, bad, min)
    ensures var d := CommitChunk(db, c, sum, size, ok, bad, min);
      && d.chunks == db.chunks[c := ChunkRow(db.chunks[c].owner, db.chunks[c].index, size, sum, Committed)]
      && d.objects == db.objects
  {
    Refinement.CommitMeans(db, c, sum, ok, bad, min);
  }

  // -------------------------------------------------------------- a retried position

  /** Reserving a taken position again reopens the chunk that holds it, and does nothing else. */
  lemma RetryReopens(db: Db, id: ChunkId, owner: Owner, index: nat, size: nat, c: ChunkId)
    requires Inv(db) && Open(db, owner) && Holds(db, c, owner, index)
    ensures ReserveChunk(db, id, owner, index, size) ==
      db.(chunks := db.chunks[c := ChunkRow(owner, index, size, db.chunks[c].checksum, Pending)])
  {
    Refinement.OpenMeans(db, owner);
    OnlyHolder(db, owner, index, c);
    ReuseOne(db, c, size);
  }

  lemma ReuseOne(db: Db, c: ChunkId, size: nat)
    requires c in db.chunks
    ensures ReuseChunks(db, {c}, size) == db.(chunks := db.chunks[c := db.chunks[c].(size := size, state := Pending)])
  {
    assert ReuseChunks(db, {c}, size).chunks == db.chunks[c := db.chunks[c].(size := size, state := Pending)];
  }

  lemma OnlyHolder(db: Db, owner: Owner, index: nat, c: ChunkId)
    requires OnePerPosition(db) && Holds(db, c, owner, index)
    ensures AtPosition(db.chunks, owner, index) == {c}
  {
  }

  /** A retried position written to the end: reserve, record the targets, send the bytes, commit. */
  lemma RetriedWrite(db: Db, d: Db, o: ObjectId, i: nat, w: Uploads.ChunkWrite, min: nat)
    requires Inv(db) && Open(db, ObjectOwner(o)) && Holds(db, w.id, ObjectOwner(o), i)
    requires w.ok + w.bad <= db.nodes.Keys && HexDigest(w.sum)
    requires |(AvailableNodes(db.replicas, w.id) - w.bad) + w.ok| >= min && d == Uploads.WriteOne(db, o, i, w, min)
    ensures d.chunks == db.chunks[w.id := ChunkRow(ObjectOwner(o), i, w.size, w.sum, Committed)]
    ensures d.objects == db.objects
    ensures AvailableNodes(d.replicas, w.id) == (AvailableNodes(db.replicas, w.id) - w.bad) + w.ok
  {
    var reserved := ReserveChunk(db, w.id, ObjectOwner(o), i, w.size);
    RetryReopens(db, w.id, ObjectOwner(o), i, w.size, w.id);
    TargetsLeave(reserved, w.id, w.ok + w.bad);
    SentWrite(db, reserved, RecordTargets(reserved, w.id, w.ok + w.bad), d, o, i, w, min);
  }

  /** The last two steps of a retried write. */
  lemma SentWrite(db: Db, reserved: Db, recorded: Db, d: Db, o: ObjectId, i: nat, w: Uploads.ChunkWrite, min: nat)
    requires w.id in db.chunks && db.chunks[w.id].owner == ObjectOwner(o) && db.chunks[w.id].index == i
    requires reserved ==
      db.(chunks := db.chunks[w.id := ChunkRow(ObjectOwner(o), i, w.size, db.chunks[w.id].checksum, Pending)])
    requires recorded == reserved.(replicas := recorded.replicas, available := recorded.available)
    requires AvailableNodes(recorded.replicas, w.id) == AvailableNodes(db.replicas, w.id) - (w.ok + w.bad)
    requires w.ok <= db.nodes.Keys && HexDigest(w.sum) && |(AvailableNodes(db.replicas, w.id) - w.bad) + w.ok| >= min
    requires d == CommitChunk(recorded, w.id, w.sum, w.size, w.ok, w.bad, min)
    ensures d.chunks == db.chunks[w.id := ChunkRow(ObjectOwner(o), i, w.size, w.sum, Committed)]
    ensures d.objects == db.objects
    ensures AvailableNodes(d.replicas, w.id) == (AvailableNodes(db.replicas, w.id) - w.bad) + w.ok
  {
    TargetsCancel(AvailableNodes(db.replicas, w.id), w.ok, w.bad);
    CommitSays(recorded, d, w, min);
  }

  lemma TargetsCancel(had: set<NodeId>, ok: set<NodeId>, bad: set<NodeId>)
    ensures (had - (ok + bad) - bad) + ok == (had - bad) + ok
  {
  }

  lemma CommitSays(db: Db, d: Db, w: Uploads.ChunkWrite, min: nat)
    requires Commits(db, w.id, w.sum, w.ok, w.bad, min)
    requires d == CommitChunk(db, w.id, w.sum, w.size, w.ok, w.bad, min)
    ensures d.chunks ==
      db.chunks[w.id := ChunkRow(db.chunks[w.id].owner, db.chunks[w.id].index, w.size, w.sum, Committed)]
    ensures d.objects == db.objects
    ensures AvailableNodes(d.replicas, w.id) == (AvailableNodes(db.replicas, w.id) - w.bad) + w.ok
  {
    CommitRow(db, w.id, w.sum, w.size, w.ok, w.bad, min);
    CommitLeaves(db, w.id, w.sum, w.size, w.ok, w.bad, min);
  }

  lemma TargetsLeave(db: Db, c: ChunkId, ns: set<NodeId>)
    requires c in db.chunks && ns <= db.nodes.Keys
    ensures var d := RecordTargets(db, c, ns);
      && AvailableNodes(d.replicas, c) == AvailableNodes(db.replicas, c) - ns
      && d == db.(replicas := d.replicas, available := d.available)
  {
    var d, had := RecordTargets(db, c, ns), AvailableNodes(db.replicas, c);
    forall n: NodeId ensures n in AvailableNodes(d.replicas, c) <==> n in had - ns {
      Refinement.WriteRow(db, RowsOn(c, ns, Writing), {}, Loc(c, n));
      Refinement.OnNodes(c, ns, Writing, Loc(c, n));
    }
  }

  lemma CommitLeaves(db: Db, c: ChunkId, sum: string, size: nat, ok: set<NodeId>, bad: set<NodeId>, min: nat)
    requires Commits(db, c, sum, ok, bad, min)
    ensures var d := CommitChunk(db, c, sum, size, ok, bad, min);
      AvailableNodes(d.replicas, c) == (AvailableNodes(db.replicas, c) - bad) + ok
  {
    Refinement.CommitMeans(db, c, sum, ok, bad, min);
    Refinement.CommitNodes(db, c, ok, bad);
  }

  /** The step starts an object under this id. */
  ghost predicate Starts(s: Step, o: ObjectId) {
    || (s.OnUploads? && s.u.DoBeginUpload? && s.u.o == o)
    || (s.OnMultipart? && s.m.DoCompleteMultipart? && s.m.o == o)
  }

  ghost predicate CommitsChunk(s: Step, c: ChunkId) {
    s.OnUploads? && s.u.DoCommit? && s.u.c == c
  }

  /** Not shown, and, while it is being uploaded, waiting for the chunk. */
  ghost predicate Waiting(db: Db, o: ObjectId, c: ChunkId) {
    o in db.objects ==>
      && db.objects[o].state != Complete
      && (db.objects[o].state == Uploading ==>
            c in db.chunks && db.chunks[c].owner == ObjectOwner(o) && db.chunks[c].state == Pending)
  }

  lemma WaitingBlocks(db: Db, o: ObjectId, c: ChunkId, count: nat)
    requires Waiting(db, o, c)
    ensures !Completes(db, o, count)
  {
  }

  lemma ObjectWaits(db: Db, s: Step, o: ObjectId, c: ChunkId)
    requires Waiting(db, o, c) && !Starts(s, o)
    ensures ObjectCell(db, s, o).Is? ==>
      && o in db.objects && ObjectCell(db, s, o).value.state != Complete
      && (ObjectCell(db, s, o).value.state == Uploading ==> db.objects[o].state == Uploading && !EndsObject(db, s, o))
  {
    if s.OnUploads? && s.u.DoCompleteUpload? {
      WaitingBlocks(db, o, c, s.u.count);
    }
  }

  lemma ChunkWaits(db: Db, s: Step, o: ObjectId, c: ChunkId)
    requires o in db.objects && db.objects[o].state == Uploading && !EndsObject(db, s, o) && !CommitsChunk(s, c)
    requires c in db.chunks && db.chunks[c].owner == ObjectOwner(o) && db.chunks[c].state == Pending
    ensures ChunkCell(db, s, c).Is?
    ensures ChunkCell(db, s, c).value.owner == ObjectOwner(o) && ChunkCell(db, s, c).value.state == Pending
  {
    assert !Purges(db, s, c) && !Orphans(db, s, c);
  }

  lemma StepWaits(db: Db, s: Step, o: ObjectId, c: ChunkId)
    requires Waiting(db, o, c) && !Starts(s, o) && !CommitsChunk(s, c)
    ensures Waiting(Apply(db, s), o, c)
  {
    var d := Apply(db, s);
    RefinedCatalog.Objects(db, s, o);
    RefinedCatalog.Chunks(db, s, c);
    ObjectWaits(db, s, o, c);
    if o in d.objects && d.objects[o].state == Uploading {
      ChunkWaits(db, s, o, c);
    }
  }

  lemma {:induction false} RunWaits(db: Db, steps: seq<Step>, o: ObjectId, c: ChunkId)
    requires Waiting(db, o, c) && forall s | s in steps :: !Starts(s, o) && !CommitsChunk(s, c)
    ensures Waiting(Run(db, steps), o, c)
    decreases |steps|
  {
    if steps != [] {
      var rest, last := steps[..|steps| - 1], steps[|steps| - 1];
      assert last in steps && forall s | s in rest :: s in steps;
      RunWaits(db, rest, o, c);
      StepWaits(Run(db, rest), last, o, c);
    }
  }

  /**
   A retried position holds its object up: whatever else happens, no completion takes effect and the object is not
   shown until that very chunk is committed again.
   */
  lemma RetryHoldsUp(db: Db, id: ChunkId, o: ObjectId, index: nat, size: nat, c: ChunkId, steps: seq<Step>, total: nat,
                     count: nat)
    requires Inv(db) && Open(db, ObjectOwner(o)) && Holds(db, c, ObjectOwner(o), index)
    requires forall s | s in steps :: !Starts(s, o) && !CommitsChunk(s, c)
    ensures var d := Run(ReserveChunk(db, id, ObjectOwner(o), index, size), steps);
      CompleteUpload(d, o, total, count) == d && (o in d.objects ==> d.objects[o].state != Complete)
  {
    RetryReopens(db, id, ObjectOwner(o), index, size, c);
    var first := ReserveChunk(db, id, ObjectOwner(o), index, size);
    RunWaits(first, steps, o, c);
    var d := Run(first, steps);
    WaitingBlocks(d, o, c, count);
    Refinement.CompleteMeans(d, o, count);
  }

  // ------------------------------------------------------------------ finished parts

  /** The step begins a part under this id. */
  ghost predicate BeginsPart(s: Step, p: PartId) {
    s.OnMultipart? && s.m.DoBeginPart? && s.m.p == p
  }

  /** What a finished part reported stands; the part can only be failed or forgotten. */
  ghost predicate Stands(db: Db, p: PartId, row: PartRow) {
    p in db.parts ==> db.parts[p] == row || db.parts[p] == row.(state := PartFailed)
  }

  lemma StepStands(db: Db, s: Step, p: PartId, row: PartRow)
    requires Stands(db, p, row) && row.state == PartComplete && !BeginsPart(s, p)
    ensures Stands(Apply(db, s), p, row)
  {
    RefinedCatalog.Sessions(db, s, 0, p);
  }

  lemma {:induction false} RunStands(db: Db, steps: seq<Step>, p: PartId, row: PartRow)
    requires Stands(db, p, row) && row.state == PartComplete && forall s | s in steps :: !BeginsPart(s, p)
    ensures Stands(Run(db, steps), p, row)
    decreases |steps|
  {
    if steps != [] {
      var rest, last := steps[..|steps| - 1], steps[|steps| - 1];
      assert last in steps && forall s | s in rest :: s in steps;
      RunStands(db, rest, p, row);
      StepStands(Run(db, rest), last, p, row);
    }
  }

  /** What a part is completed with is what an assembly counts for it, however long after. */
  lemma ReportStands(db: Db, p: PartId, size: nat, count: nat, etag: string, steps: seq<Step>)
    requires PartCompletes(db, p, count) && forall s | s in steps :: !BeginsPart(s, p)
    ensures var d, u := Run(CompletePart(db, p, size, count, etag), steps), db.parts[p].upload;
      && (p in d.parts && d.parts[p].state == PartComplete ==>
            d.parts[p] == PartRow(u, db.parts[p].number, PartComplete, size, count, etag))
      && (Finished(d, u, p) ==> Sizes(d)(p) == size && Counts(d)(p) == count)
  {
    var row := PartRow(db.parts[p].upload, db.parts[p].number, PartComplete, size, count, etag);
    RefinedCatalog.FinishedPart(db, p, size, count, etag, p);
    RunStands(CompletePart(db, p, size, count, etag), steps, p, row);
  }
}
