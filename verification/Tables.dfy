/**
 The coordinator's metadata tables as one value.

 Node, object, part, upload and chunk identifiers are natural numbers compared the way the
 database compares the originals. `chunks.available_replicas` is kept in its own map with
 the chunk ids as keys, so that the durability trigger touches nothing else.
 */
module Tables {

  type NodeId = nat
  type ObjectId = nat
  type UploadId = nat
  type PartId = nat
  type ChunkId = nat

  datatype Key = Key(bucket: string, name: string)

  datatype Health = Unknown | Healthy | Suspect | Dead

  datatype ObjectState = Uploading | Complete | Retiring | Failed

  datatype UploadState = InProgress | Completing | Completed | Aborted

  datatype PartState = PartUploading | PartComplete | PartFailed

  datatype ChunkState = Pending | Committed | Orphaned

  datatype ReplicaState = Writing | Available | Unavailable | Deleting | Corrupt | Stale

  datatype JobState = JobPending | JobRunning | JobSucceeded | JobFailed

  datatype Owner = ObjectOwner(oid: ObjectId) | PartOwner(pid: PartId)

  datatype NodeRow = NodeRow(health: Health, used: nat)

  datatype ObjectRow = ObjectRow(key: Key, state: ObjectState, size: nat, chunkCount: nat)

  datatype UploadRow = UploadRow(key: Key, state: UploadState)

  datatype PartRow = PartRow(upload: UploadId, number: nat, state: PartState, size: nat, chunkCount: nat, etag: string)

  datatype ChunkRow = ChunkRow(owner: Owner, index: nat, size: nat, checksum: string, state: ChunkState)

  /** The primary key of `chunk_replicas`, and the unique key of `chunk_deletions`. */
  datatype Loc = Loc(chunk: ChunkId, node: NodeId)

  /** A deletion job's id is its location plus the serial of the statement that inserted it. */
  datatype DeletionRow = DeletionRow(serial: nat, attempts: nat, due: nat)

  /** A repair job's id is its chunk plus the serial of the statement that inserted it. */
  datatype JobId = JobId(chunk: ChunkId, serial: nat)

  datatype JobRow = JobRow(state: JobState, attempts: nat, lease: nat, due: nat)

  datatype Db = Db(
    nodes: map<NodeId, NodeRow>,
    objects: map<ObjectId, ObjectRow>,
    uploads: map<UploadId, UploadRow>,
    parts: map<PartId, PartRow>,
    chunks: map<ChunkId, ChunkRow>,
    available: map<ChunkId, int>,
    replicas: map<Loc, ReplicaState>,
    deletions: map<Loc, DeletionRow>,
    jobs: map<JobId, JobRow>,
    serial: nat,
    now: nat)

  const Empty := Db(map[], map[], map[], map[], map[], map[], map[], map[], map[], 0, 0)

  // ----------------------------------------------------------------- queries

  /** Nodes with any replica row for the chunk: where repair must not put another copy. */
  function RowNodes(replicas: map<Loc, ReplicaState>, c: ChunkId): (s: set<NodeId>)
    ensures forall n :: n in s <==> Loc(c, n) in replicas
  {
    set l | l in replicas && l.chunk == c :: l.node
  }

  /** Nodes whose replica of the chunk counts towards durability. */
  function AvailableNodes(replicas: map<Loc, ReplicaState>, c: ChunkId): (s: set<NodeId>)
    ensures forall n :: n in s <==> Loc(c, n) in replicas && replicas[Loc(c, n)] == Available
  {
    set l | l in replicas && l.chunk == c && replicas[l] == Available :: l.node
  }

  function Owned(chunks: map<ChunkId, ChunkRow>, owner: Owner): set<ChunkId> {
    set c | c in chunks && chunks[c].owner == owner
  }

  predicate Active(row: JobRow) {
    row.state == JobPending || row.state == JobRunning
  }

  predicate HasActiveJob(db: Db, c: ChunkId) {
    exists j :: j in db.jobs && j.chunk == c && Active(db.jobs[j])
  }

  /** The chunk's owner still wants it: neither retired, nor failed, nor superseded. */
  predicate LiveOwner(db: Db, owner: Owner) {
    match owner
    case ObjectOwner(o) =>
      o in db.objects && db.objects[o].state in {Complete, Uploading}
    case PartOwner(p) =>
      && p in db.parts && db.parts[p].state in {PartUploading, PartComplete}
      && db.parts[p].upload in db.uploads && db.uploads[db.parts[p].upload].state == InProgress
  }

  predicate Live(db: Db, c: ChunkId) {
    c in db.chunks && LiveOwner(db, db.chunks[c].owner)
  }

  /** Accepting chunks: the check every chunk reservation makes first. */
  predicate Writable(db: Db, owner: Owner) {
    match owner
    case ObjectOwner(o) => o in db.objects && db.objects[o].state == Uploading
    case PartOwner(p) => p in db.parts && db.parts[p].state == PartUploading
  }

  /** Object versions of a key that readers may be shown. */
  function CompleteVersions(objects: map<ObjectId, ObjectRow>, k: Key): set<ObjectId> {
    set o | o in objects && objects[o].key == k && objects[o].state == Complete
  }

  /** A replica the read path may be sent to. */
  predicate Readable(db: Db, l: Loc) {
    && l in db.replicas && db.replicas[l] == Available
    && l.node in db.nodes && db.nodes[l.node].health != Dead
  }

  // ------------------------------------------------------- what steps may change

  /** Only nodes, replica rows and deletion jobs may differ. */
  predicate OnlyReplicas(db: Db, d: Db) {
    && d == db.(nodes := d.nodes, available := d.available, replicas := d.replicas, deletions := d.deletions,
                serial := d.serial)
    && db.serial <= d.serial
  }

  /** Only repair jobs and replica rows may differ. */
  predicate OnlyJobs(db: Db, d: Db) {
    && d == db.(available := d.available, replicas := d.replicas, jobs := d.jobs, serial := d.serial)
    && db.serial <= d.serial
  }

  /** Only the repair queue may differ. */
  predicate OnlyQueue(db: Db, d: Db) {
    d == db.(jobs := d.jobs, serial := d.serial) && db.serial <= d.serial
  }

  /** Nodes, sessions, parts, repair jobs and the clock stay. */
  predicate OnlyObjects(db: Db, d: Db) {
    && d == db.(objects := d.objects, chunks := d.chunks, available := d.available, replicas := d.replicas,
                deletions := d.deletions, serial := d.serial)
    && db.serial <= d.serial
  }

  /** Nodes, repair jobs and the clock stay. */
  predicate OnlyCatalog(db: Db, d: Db) {
    && d == db.(objects := d.objects, uploads := d.uploads, parts := d.parts, chunks := d.chunks,
                available := d.available, replicas := d.replicas, deletions := d.deletions, serial := d.serial)
    && db.serial <= d.serial
  }

  // ------------------------------------------------- replica table and trigger

  /** The chunks whose replica rows a statement writes. */
  function Touched(replicas: map<Loc, ReplicaState>, rows: map<Loc, ReplicaState>, gone: set<Loc>): set<ChunkId> {
    set l | l in rows.Keys + (gone * replicas.Keys) :: l.chunk
  }

  /** The durability trigger: recounts the AVAILABLE rows of the touched chunks. */
  function Recount(available: map<ChunkId, int>, replicas: map<Loc, ReplicaState>,
                   touched: set<ChunkId>): map<ChunkId, int> {
    map c | c in available :: if c in touched then |AvailableNodes(replicas, c)| as int else available[c]
  }

  /** Upserts `rows`, removes `gone`, and fires the trigger for every chunk written. */
  function WriteReplicas(db: Db, rows: map<Loc, ReplicaState>, gone: set<Loc>): (d: Db)
    ensures OnlyReplicas(db, d)
    ensures d.nodes == db.nodes && d.deletions == db.deletions && d.serial == db.serial
  {
    var replicas := (db.replicas - gone) + rows;
    db.(replicas := replicas, available := Recount(db.available, replicas, Touched(db.replicas, rows, gone)))
  }

  function SetReplica(db: Db, l: Loc, s: ReplicaState): (d: Db)
    ensures OnlyReplicas(db, d)
  {
    WriteReplicas(db, map[l := s], {})
  }

  /** `INSERT INTO chunk_deletions ... ON CONFLICT DO NOTHING`. */
  function InsertDeletions(db: Db, ls: set<Loc>): (d: Db)
    ensures OnlyReplicas(db, d)
    ensures d.nodes == db.nodes && d.available == db.available && d.replicas == db.replicas
  {
    db.(
      deletions := (map l | l in ls :: DeletionRow(db.serial, 0, db.now)) + db.deletions,
      serial := db.serial + 1)
  }

  /** The chunks' replica rows not already on their way out. */
  function Outgoing(db: Db, cs: set<ChunkId>): set<Loc> {
    set l | l in db.replicas && l.chunk in cs && db.replicas[l] != Deleting
  }

  /** Every replica row of the chunks, as DELETING. */
  function AllDeleting(db: Db, cs: set<ChunkId>): map<Loc, ReplicaState> {
    map l | l in db.replicas && l.chunk in cs :: Deleting
  }

  /** Queues one deletion per outgoing row, then marks every row of the chunks DELETING. */
  function RetireChunks(db: Db, cs: set<ChunkId>): (d: Db)
    ensures OnlyReplicas(db, d)
  {
    WriteReplicas(InsertDeletions(db, Outgoing(db, cs)), AllDeleting(db, cs), {})
  }
}
