/** A well-behaved upload, from its first reservation to its completion. */
module Uploads {
  import opened Tables
  import opened Transactions
  import opened Invariants
  import opened Visibility
  import opened Effects

  /** One chunk as the gateway writes it: who acknowledged the bytes and who did not. */
  datatype ChunkWrite = ChunkWrite(id: ChunkId, size: nat, sum: string, ok: set<NodeId>, bad: set<NodeId>)

  /** Reserve, record the targets, send the bytes, commit. */
  function WriteOne(db: Db, o: ObjectId, i: nat, w: ChunkWrite, min: nat): Db {
    var reserved := ReserveChunk(db, w.id, ObjectOwner(o), i, w.size);
    CommitChunk(RecordTargets(reserved, w.id, w.ok + w.bad), w.id, w.sum, w.size, w.ok, w.bad, min)
  }

  function WriteAll(db: Db, o: ObjectId, ws: seq<ChunkWrite>, min: nat): Db
    decreases |ws|
  {
    if ws == [] then db else WriteOne(WriteAll(db, o, ws[..|ws| - 1], min), o, |ws| - 1, ws[|ws| - 1], min)
  }

  function UploadAll(db: Db, o: ObjectId, k: Key, ws: seq<ChunkWrite>, size: nat, min: nat): Db {
    CompleteUpload(WriteAll(BeginUpload(db, o, k), o, ws, min), o, size, |ws|)
  }

  /** Enough nodes acknowledge each chunk, under identifiers never used before. */
  ghost predicate WellWritten(db: Db, ws: seq<ChunkWrite>, min: nat) {
    && (forall i | 0 <= i < |ws| ::
          && ws[i].id !in db.chunks && ws[i].id != 0
          && ws[i].ok + ws[i].bad <= db.nodes.Keys && IsHexDigest(ws[i].sum) && min <= |ws[i].ok|)
    && (forall i, j | 0 <= i < j < |ws| :: ws[i].id != ws[j].id)
  }

  /** The chunk is recorded at its position, with its size and digest. */
  ghost predicate Listed(chunks: map<ChunkId, ChunkRow>, o: ObjectId, i: nat, w: ChunkWrite) {
    w.id in chunks && chunks[w.id] == ChunkRow(ObjectOwner(o), i, w.size, w.sum, Committed)
  }

  /** It is also AVAILABLE on exactly the nodes that acknowledged it. */
  ghost predicate Stored(db: Db, o: ObjectId, i: nat, w: ChunkWrite) {
    Listed(db.chunks, o, i, w) && AvailableNodes(db.replicas, w.id) == w.ok
  }

  /** The object has exactly these chunks, as written. */
  ghost predicate Laid(chunks: map<ChunkId, ChunkRow>, o: ObjectId, ws: seq<ChunkWrite>) {
    Owned(chunks, ObjectOwner(o)) == Ids(ws) && forall i | 0 <= i < |ws| :: Listed(chunks, o, i, ws[i])
  }

  ghost function Ids(ws: seq<ChunkWrite>): set<ChunkId> {
    set i | 0 <= i < |ws| :: ws[i].id
  }

  // -------------------------------------------------------------------- one chunk

  lemma WrittenRows(db: Db, c: ChunkId, ok: set<NodeId>, bad: set<NodeId>)
    requires RowNodes(db.replicas, c) == {}
    ensures var recorded := WriteReplicas(db, RowsOn(c, ok + bad, Writing), {});
      AvailableNodes(CommitRows(recorded, c, ok, bad).replicas, c) == ok
  {
    var recorded := WriteReplicas(db, RowsOn(c, ok + bad, Writing), {});
    WritingRows(db, c, ok + bad);
    FailedStayDown(recorded, c, bad);
    AvailableOver(WriteReplicas(recorded, FailedRows(recorded, c, bad), {}), c, ok);
  }

  lemma WritingRows(db: Db, c: ChunkId, ns: set<NodeId>)
    requires RowNodes(db.replicas, c) == {}
    ensures AvailableNodes(WriteReplicas(db, RowsOn(c, ns, Writing), {}).replicas, c) == {}
  {
  }

  lemma FailedStayDown(db: Db, c: ChunkId, bad: set<NodeId>)
    requires AvailableNodes(db.replicas, c) == {}
    ensures AvailableNodes(WriteReplicas(db, FailedRows(db, c, bad), {}).replicas, c) == {}
  {
  }

  lemma AvailableOver(db: Db, c: ChunkId, ok: set<NodeId>)
    requires AvailableNodes(db.replicas, c) == {}
    ensures AvailableNodes(WriteReplicas(db, RowsOn(c, ok, Available), {}).replicas, c) == ok
  {
  }

  lemma RowsElsewhere(db: Db, rows: map<Loc, ReplicaState>, c: ChunkId, x: ChunkId)
    requires x != c && forall l | l in rows :: l.chunk == c
    ensures AvailableNodes(WriteReplicas(db, rows, {}).replicas, x) == AvailableNodes(db.replicas, x)
  {
  }

  lemma CommitElsewhereRows(db: Db, c: ChunkId, ok: set<NodeId>, bad: set<NodeId>, x: ChunkId)
    requires x != c
    ensures AvailableNodes(CommitRows(db, c, ok, bad).replicas, x) == AvailableNodes(db.replicas, x)
  {
    RowsElsewhere(db, FailedRows(db, c, bad), c, x);
    RowsElsewhere(WriteReplicas(db, FailedRows(db, c, bad), {}), RowsOn(c, ok, Available), c, x);
  }

  /** The tables after one write, compared with those before. */
  ghost predicate Added(db: Db, d: Db, o: ObjectId, i: nat, w: ChunkWrite) {
    && d.nodes == db.nodes && d.objects == db.objects
    && d.chunks == db.chunks[w.id := ChunkRow(ObjectOwner(o), i, w.size, w.sum, Committed)]
    && AvailableNodes(d.replicas, w.id) == w.ok
    && forall x: ChunkId | x != w.id :: AvailableNodes(d.replicas, x) == AvailableNodes(db.replicas, x)
  }

  lemma ReservedNew(db: Db, o: ObjectId, i: nat, w: ChunkWrite)
    requires Writable(db, ObjectOwner(o)) && AtPosition(db.chunks, ObjectOwner(o), i) == {} && w.id !in db.chunks
    requires w.id != 0
    ensures ReserveChunk(db, w.id, ObjectOwner(o), i, w.size) == MintChunk(db, w.id, ObjectOwner(o), i, w.size)
  {
  }

  /** The reserved chunk's bytes have been acknowledged and nothing else changed. */
  ghost predicate Filled(db: Db, d: Db, w: ChunkWrite)
    requires w.id in db.chunks
  {
    && d.nodes == db.nodes && d.objects == db.objects
    && d.chunks == db.chunks[w.id := db.chunks[w.id].(checksum := w.sum, size := w.size, state := Committed)]
    && AvailableNodes(d.replicas, w.id) == w.ok
    && forall x: ChunkId | x != w.id :: AvailableNodes(d.replicas, x) == AvailableNodes(db.replicas, x)
  }

  lemma CommittedNew(db: Db, w: ChunkWrite, min: nat)
    requires w.id in db.chunks && RowNodes(db.replicas, w.id) == {}
    requires w.ok + w.bad <= db.nodes.Keys && IsHexDigest(w.sum) && min <= |w.ok|
    ensures Filled(db, CommitChunk(RecordTargets(db, w.id, w.ok + w.bad), w.id, w.sum, w.size, w.ok, w.bad, min), w)
  {
    var recorded := RecordTargets(db, w.id, w.ok + w.bad);
    assert recorded == WriteReplicas(db, RowsOn(w.id, w.ok + w.bad, Writing), {});
    WrittenRows(db, w.id, w.ok, w.bad);
    assert w.ok <= w.ok + w.bad;
    assert CommitAccepted(recorded, w.id, w.sum, w.ok, w.bad, min);
    forall x: ChunkId | x != w.id
      ensures AvailableNodes(CommitRows(recorded, w.id, w.ok, w.bad).replicas, x) == AvailableNodes(db.replicas, x)
    {
      RowsElsewhere(db, RowsOn(w.id, w.ok + w.bad, Writing), w.id, x);
      CommitElsewhereRows(recorded, w.id, w.ok, w.bad, x);
    }
  }

  lemma OneWritten(db: Db, o: ObjectId, i: nat, w: ChunkWrite, min: nat)
    requires Writable(db, ObjectOwner(o)) && AtPosition(db.chunks, ObjectOwner(o), i) == {} && w.id !in db.chunks
    requires w.id != 0
    requires RowNodes(db.replicas, w.id) == {}
    requires w.ok + w.bad <= db.nodes.Keys && IsHexDigest(w.sum) && min <= |w.ok|
    ensures Added(db, WriteOne(db, o, i, w, min), o, i, w)
  {
    var minted := MintChunk(db, w.id, ObjectOwner(o), i, w.size);
    ReservedNew(db, o, i, w);
    CommittedNew(minted, w, min);
    MintedThenFilled(db, WriteOne(db, o, i, w, min), o, i, w);
  }

  lemma MintedThenFilled(db: Db, d: Db, o: ObjectId, i: nat, w: ChunkWrite)
    requires Filled(MintChunk(db, w.id, ObjectOwner(o), i, w.size), d, w)
    ensures Added(db, d, o, i, w)
  {
  }

  lemma ReserveKeeps(db: Db, id: ChunkId, owner: Owner, i: nat, size: nat)
    requires Inv(db)
    ensures Inv(ReserveChunk(db, id, owner, i, size))
  {
    StepKeeps(db, OnUploads(DoReserve(id, owner, i, size)), ReserveChunk(db, id, owner, i, size));
  }

  lemma TargetsKeep(db: Db, c: ChunkId, ns: set<NodeId>)
    requires Inv(db)
    ensures Inv(RecordTargets(db, c, ns))
  {
    StepKeeps(db, OnReplicas(DoRecordTargets(c, ns)), RecordTargets(db, c, ns));
  }

  lemma CommitKeeps(db: Db, c: ChunkId, sum: string, size: nat, ok: set<NodeId>, bad: set<NodeId>, min: nat)
    requires Inv(db)
    ensures Inv(CommitChunk(db, c, sum, size, ok, bad, min))
  {
    StepKeeps(db, OnUploads(DoCommit(c, sum, size, ok, bad, min)), CommitChunk(db, c, sum, size, ok, bad, min));
  }

  lemma WriteOneInv(db: Db, o: ObjectId, i: nat, w: ChunkWrite, min: nat)
    requires Inv(db)
    ensures Inv(WriteOne(db, o, i, w, min))
  {
    var reserved := ReserveChunk(db, w.id, ObjectOwner(o), i, w.size);
    ReserveKeeps(db, w.id, ObjectOwner(o), i, w.size);
    TargetsKeep(reserved, w.id, w.ok + w.bad);
    CommitKeeps(RecordTargets(reserved, w.id, w.ok + w.bad), w.id, w.sum, w.size, w.ok, w.bad, min);
  }

  // ------------------------------------------------------------------- all chunks

  /** The upload is open and holds exactly the chunks written so far. */
  ghost predicate Written(db: Db, d: Db, o: ObjectId, k: Key, ws: seq<ChunkWrite>) {
    && d.nodes == db.nodes
    && d.objects == db.objects[o := ObjectRow(k, Uploading, 0, 0)]
    && d.chunks.Keys == db.chunks.Keys + Ids(ws)
    && Owned(d.chunks, ObjectOwner(o)) == Ids(ws)
    && forall i | 0 <= i < |ws| :: Stored(d, o, i, ws[i])
  }

  lemma BegunWritten(db: Db, o: ObjectId, k: Key)
    requires Inv(db) && o !in db.objects
    ensures Written(db, BeginUpload(db, o, k), o, k, []) && Inv(BeginUpload(db, o, k))
  {
    BeginKeeps(db, o, k);
    assert Ids([]) == {};
    NothingOwned(db, o);
  }

  lemma BeginKeeps(db: Db, o: ObjectId, k: Key)
    requires Inv(db)
    ensures Inv(BeginUpload(db, o, k))
  {
    StepKeeps(db, OnUploads(DoBeginUpload(o, k)), BeginUpload(db, o, k));
  }

  lemma NothingOwned(db: Db, o: ObjectId)
    requires CatalogRefs(db) && o !in db.objects
    ensures Owned(db.chunks, ObjectOwner(o)) == {}
  {
  }

  lemma IdsSnoc(ws: seq<ChunkWrite>, w: ChunkWrite)
    ensures Ids(ws + [w]) == Ids(ws) + {w.id}
  {
    var all := ws + [w];
    assert all[|ws|] == w;
    forall i | 0 <= i < |ws| ensures all[i] == ws[i] && ws[i].id in Ids(all) {
    }
    assert all[|ws|].id in Ids(all);
  }

  lemma AddedWritten(db: Db, d: Db, n: Db, o: ObjectId, k: Key, ws: seq<ChunkWrite>, w: ChunkWrite)
    requires Written(db, d, o, k, ws) && Added(d, n, o, |ws|, w)
    requires w.id !in d.chunks && forall i | 0 <= i < |ws| :: ws[i].id != w.id
    ensures Written(db, n, o, k, ws + [w])
  {
    var all := ws + [w];
    IdsSnoc(ws, w);
    OwnedMore(d.chunks, o, w.id, n.chunks[w.id]);
    forall i | 0 <= i < |all| ensures Stored(n, o, i, all[i]) {
      if i < |ws| {
        assert Stored(d, o, i, ws[i]);
      }
    }
  }

  lemma OwnedMore(chunks: map<ChunkId, ChunkRow>, o: ObjectId, c: ChunkId, row: ChunkRow)
    requires row.owner == ObjectOwner(o)
    ensures Owned(chunks[c := row], ObjectOwner(o)) == Owned(chunks, ObjectOwner(o)) + {c}
  {
  }

  lemma PositionFree(db: Db, d: Db, o: ObjectId, k: Key, ws: seq<ChunkWrite>)
    requires Written(db, d, o, k, ws)
    ensures AtPosition(d.chunks, ObjectOwner(o), |ws|) == {}
  {
    forall c | c in Owned(d.chunks, ObjectOwner(o)) ensures d.chunks[c].index < |ws| {
      var i :| 0 <= i < |ws| && ws[i].id == c;
      assert Stored(d, o, i, ws[i]);
    }
    assert AtPosition(d.chunks, ObjectOwner(o), |ws|) <= Owned(d.chunks, ObjectOwner(o));
  }

  lemma NoRowsYet(db: Db, c: ChunkId)
    requires ReplicaRefs(db) && c !in db.chunks
    ensures RowNodes(db.replicas, c) == {}
  {
  }

  /** One more chunk of an open upload. */
  lemma WriteNext(db: Db, d: Db, o: ObjectId, k: Key, ws: seq<ChunkWrite>, w: ChunkWrite, min: nat)
    requires Written(db, d, o, k, ws) && ReplicaRefs(d) && WellWritten(db, ws + [w], min)
    ensures Written(db, WriteOne(d, o, |ws|, w, min), o, k, ws + [w])
  {
    var all := ws + [w];
    assert all[|ws|] == w;
    assert forall i | 0 <= i < |ws| :: all[i] == ws[i] && all[i].id != w.id;
    PositionFree(db, d, o, k, ws);
    NoRowsYet(d, w.id);
    OneWritten(d, o, |ws|, w, min);
    AddedWritten(db, d, WriteOne(d, o, |ws|, w, min), o, k, ws, w);
  }

  lemma {:induction false} WriteAllInv(db: Db, o: ObjectId, ws: seq<ChunkWrite>, min: nat)
    requires Inv(db)
    ensures Inv(WriteAll(db, o, ws, min))
    decreases |ws|
  {
    if ws == [] {
    } else {
      WriteAllInv(db, o, ws[..|ws| - 1], min);
      WriteOneInv(WriteAll(db, o, ws[..|ws| - 1], min), o, |ws| - 1, ws[|ws| - 1], min);
    }
  }

  lemma RefsAfter(db: Db, o: ObjectId, ws: seq<ChunkWrite>, min: nat)
    requires Inv(db)
    ensures ReplicaRefs(WriteAll(db, o, ws, min))
  {
    WriteAllInv(db, o, ws, min);
  }

  lemma WellPrefix(db: Db, ws: seq<ChunkWrite>, min: nat)
    requires WellWritten(db, ws, min) && ws != []
    ensures WellWritten(db, ws[..|ws| - 1], min)
  {
  }

  lemma {:induction false} AllWritten(db: Db, begun: Db, o: ObjectId, k: Key, ws: seq<ChunkWrite>, min: nat)
    requires Written(db, begun, o, k, []) && Inv(begun) && WellWritten(db, ws, min)
    ensures Written(db, WriteAll(begun, o, ws, min), o, k, ws)
    decreases |ws|
  {
    if ws == [] {
      assert ws == [];
    } else {
      var before, w := ws[..|ws| - 1], ws[|ws| - 1];
      WellPrefix(db, ws, min);
      AllWritten(db, begun, o, k, before, min);
      RefsAfter(begun, o, before, min);
      assert before + [w] == ws;
      WriteNext(db, WriteAll(begun, o, before, min), o, k, before, w, min);
    }
  }

  lemma {:induction false} IdsCount(ws: seq<ChunkWrite>)
    requires forall i, j | 0 <= i < j < |ws| :: ws[i].id != ws[j].id
    ensures |Ids(ws)| == |ws|
  {
    if ws == [] {
      assert Ids(ws) == {};
    } else {
      var before, w := ws[..|ws| - 1], ws[|ws| - 1];
      IdsCount(before);
      IdsSnoc(before, w);
      assert before + [w] == ws;
      assert w.id !in Ids(before);
    }
  }

  /** The finished upload: visible, declared as written, and every chunk where it was acknowledged. */
  ghost predicate Finished(d: Db, o: ObjectId, k: Key, ws: seq<ChunkWrite>, size: nat) {
    && CompleteVersions(d.objects, k) == {o} && d.objects[o] == ObjectRow(k, Complete, size, |ws|)
    && Owned(d.chunks, ObjectOwner(o)) == Ids(ws)
    && forall i | 0 <= i < |ws| :: Stored(d, o, i, ws[i])
  }

  lemma CompletesWhole(db: Db, d: Db, o: ObjectId, k: Key, ws: seq<ChunkWrite>, size: nat)
    requires Written(db, d, o, k, ws) && forall i, j | 0 <= i < j < |ws| :: ws[i].id != ws[j].id
    ensures CompleteAccepted(d, o, |ws|)
  {
    IdsCount(ws);
    forall c | c in Owned(d.chunks, ObjectOwner(o)) ensures d.chunks[c].state == Committed {
      var i :| 0 <= i < |ws| && ws[i].id == c;
      assert Stored(d, o, i, ws[i]);
    }
  }

  lemma ShownKeeps(d: Db, o: ObjectId, k: Key, size: nat, count: nat)
    requires o in d.objects && d.objects[o].key == k && d.objects[o].state == Uploading
    ensures var n := Show(d, o, size, count);
      && CompleteVersions(n.objects, k) == {o} && o in n.objects && n.objects[o] == ObjectRow(k, Complete, size, count)
      && n.nodes == d.nodes && n.chunks == d.chunks
      && forall c | c in Owned(d.chunks, ObjectOwner(o)) ::
        AvailableNodes(n.replicas, c) == AvailableNodes(d.replicas, c)
  {
    ShowVisible(d, o, size, count, k);
    var prior := CompleteVersions(d.objects, k) - {o};
    forall c | c in Owned(d.chunks, ObjectOwner(o))
      ensures AvailableNodes(Show(d, o, size, count).replicas, c) == AvailableNodes(d.replicas, c)
    {
      assert c !in OwnedByObjects(d.chunks, prior);
      RetireGentle(SetObjectStates(d, prior, Retiring), OwnedByObjects(d.chunks, prior), c);
    }
  }

  /** Completing an open upload whose chunks are all written publishes it as written. */
  lemma CompletesAsWritten(db: Db, d: Db, o: ObjectId, k: Key, ws: seq<ChunkWrite>, size: nat)
    requires Written(db, d, o, k, ws) && Inv(d) && forall i, j | 0 <= i < j < |ws| :: ws[i].id != ws[j].id
    ensures var n := CompleteUpload(d, o, size, |ws|); Inv(n) && n.nodes == db.nodes && Finished(n, o, k, ws, size)
  {
    CompletesWhole(db, d, o, k, ws, size);
    CompleteKeeps(d, o, size, |ws|);
    ShownAsWritten(db, d, o, k, ws, size);
  }

  lemma CompleteKeeps(db: Db, o: ObjectId, size: nat, count: nat)
    requires Inv(db)
    ensures Inv(CompleteUpload(db, o, size, count))
  {
    StepKeeps(db, OnUploads(DoCompleteUpload(o, size, count)), CompleteUpload(db, o, size, count));
  }

  lemma ShownAsWritten(db: Db, d: Db, o: ObjectId, k: Key, ws: seq<ChunkWrite>, size: nat)
    requires Written(db, d, o, k, ws)
    ensures var n := Show(d, o, size, |ws|); n.nodes == db.nodes && Finished(n, o, k, ws, size)
  {
    ShownKeeps(d, o, k, size, |ws|);
    forall i | 0 <= i < |ws| ensures Stored(Show(d, o, size, |ws|), o, i, ws[i]) {
      assert Stored(d, o, i, ws[i]);
      assert ws[i].id in Owned(d.chunks, ObjectOwner(o));
    }
  }

  /**
   A well-behaved upload of any number of chunks succeeds, from any good state: it becomes the one visible
   version of its key, with each chunk COMMITTED at its position and AVAILABLE on exactly the nodes that
   acknowledged it, whichever targets failed.
   */
  lemma UploadSucceeds(db: Db, o: ObjectId, k: Key, ws: seq<ChunkWrite>, size: nat, min: nat)
    requires Inv(db) && o !in db.objects && WellWritten(db, ws, min)
    ensures var d := UploadAll(db, o, k, ws, size, min); Inv(d) && d.nodes == db.nodes && Finished(d, o, k, ws, size)
  {
    BegunWritten(db, o, k);
    AllWritten(db, BeginUpload(db, o, k), o, k, ws, min);
    WriteAllInv(BeginUpload(db, o, k), o, ws, min);
    CompletesAsWritten(db, WriteAll(BeginUpload(db, o, k), o, ws, min), o, k, ws, size);
  }
}
