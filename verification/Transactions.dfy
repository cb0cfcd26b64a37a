/**
 Every transaction and stand-alone statement of the metadata store as one atomic step.

 A rejected transaction rolls back, so its step returns the tables unchanged. Where a
 statement picks rows with `ORDER BY ... LIMIT`, the step takes the picked rows as a
 `batch` and ignores members that do not qualify.
 */
module Transactions {
  import opened Tables
  import Orders
  import Sums

  // -------------------------------------------------------------------- nodes

  function RecordNode(db: Db, n: NodeId, row: NodeRow): (d: Db)
    ensures OnlyReplicas(db, d)
  {
    db.(nodes := db.nodes[n := row])
  }

  /** The given state for one chunk on each of the nodes. */
  function RowsOn(c: ChunkId, ns: set<NodeId>, s: ReplicaState): map<Loc, ReplicaState> {
    map n | n in ns :: Loc(c, n) := s
  }

  /** A node's replicas found in one of the states `from`, moved to `to`. */
  function Shifted(db: Db, n: NodeId, from: set<ReplicaState>, to: ReplicaState): map<Loc, ReplicaState> {
    map l | l in db.replicas && l.node == n && db.replicas[l] in from :: to
  }

  function NoteHealth(db: Db, n: NodeId, h: Health): (d: Db)
    ensures OnlyReplicas(db, d)
  {
    if n in db.nodes then db.(nodes := db.nodes[n := db.nodes[n].(health := h)]) else db
  }

  /** Declaring a node DEAD writes off its replicas in the same transaction. */
  function SetNodeHealth(db: Db, n: NodeId, h: Health): (d: Db)
    ensures OnlyReplicas(db, d)
  {
    if h != Dead then NoteHealth(db, n, h)
    else WriteReplicas(NoteHealth(db, n, h), Shifted(db, n, {Available, Writing}, Unavailable), {})
  }

  function MarkReplicasStale(db: Db, n: NodeId): (d: Db)
    ensures OnlyReplicas(db, d)
  {
    WriteReplicas(db, Shifted(db, n, {Unavailable}, Stale), {})
  }

  function PromoteVerified(db: Db, l: Loc): (d: Db)
    ensures OnlyReplicas(db, d)
  {
    if l in db.replicas && db.replicas[l] == Stale then SetReplica(db, l, Available) else db
  }

  function MarkCorrupt(db: Db, l: Loc): (d: Db)
    ensures OnlyReplicas(db, d)
  {
    if l.chunk !in db.chunks then db
    else
      InsertDeletions(
        if l in db.replicas && db.replicas[l] != Deleting then SetReplica(db, l, Corrupt) else db,
        {l})
  }

  function DropReplica(db: Db, l: Loc): (d: Db)
    ensures OnlyReplicas(db, d)
  {
    WriteReplicas(db, map[], {l})
  }

  function QueueOrphan(db: Db, l: Loc): (d: Db)
    ensures OnlyReplicas(db, d)
  {
    if l in db.replicas || (l.chunk in db.chunks && db.chunks[l.chunk].state == Pending) then db
    else InsertDeletions(db, {l})
  }

  // ------------------------------------------------------------------- chunks

  predicate IsHexDigest(s: string) {
    |s| == 64 && forall i | 0 <= i < 64 :: '0' <= s[i] <= '9' || 'a' <= s[i] <= 'f'
  }

  /** Chunks already reserved at a position of an owner's sequence: none, or the one to reuse. */
  function AtPosition(chunks: map<ChunkId, ChunkRow>, owner: Owner, index: nat): set<ChunkId> {
    set c | c in chunks && chunks[c].owner == owner && chunks[c].index == index
  }

  /** A retried position keeps its chunk id and goes back to PENDING. */
  function ReuseChunks(db: Db, taken: set<ChunkId>, size: nat): (d: Db)
    ensures OnlyObjects(db, d)
    ensures d.chunks.Keys == db.chunks.Keys
  {
    db.(chunks := map c | c in db.chunks ::
          if c in taken then db.chunks[c].(size := size, state := Pending) else db.chunks[c])
  }

  function MintChunk(db: Db, id: ChunkId, owner: Owner, index: nat, size: nat): (d: Db)
    ensures OnlyObjects(db, d)
  {
    db.(chunks := db.chunks[id := ChunkRow(owner, index, size, "", Pending)],
        available := db.available[id := 0])
  }

  /** `id` is the freshly minted identifier, used only when the position is new. */
  function ReserveChunk(db: Db, id: ChunkId, owner: Owner, index: nat, size: nat): (d: Db)
    ensures OnlyObjects(db, d)
  {
    var taken := AtPosition(db.chunks, owner, index);
    if !Writable(db, owner) then db
    else if taken != {} then ReuseChunks(db, taken, size)
    else if id in db.chunks || id == 0 then db
    else MintChunk(db, id, owner, index, size)
  }

  function RecordTargets(db: Db, c: ChunkId, ns: set<NodeId>): (d: Db)
    ensures OnlyReplicas(db, d)
  {
    if c !in db.chunks || !(ns <= db.nodes.Keys) then db
    else WriteReplicas(db, RowsOn(c, ns, Writing), {})
  }

  /** Rows recorded for nodes that did not acknowledge the write. */
  function FailedRows(db: Db, c: ChunkId, bad: set<NodeId>): map<Loc, ReplicaState> {
    map l | l in db.replicas && l.chunk == c && l.node in bad :: Unavailable
  }

  /** The replica rows a commit would leave: failures first, then successes. */
  function CommitRows(db: Db, c: ChunkId, ok: set<NodeId>, bad: set<NodeId>): (d: Db)
    ensures OnlyReplicas(db, d)
  {
    WriteReplicas(WriteReplicas(db, FailedRows(db, c, bad), {}), RowsOn(c, ok, Available), {})
  }

  predicate CommitAccepted(db: Db, c: ChunkId, sum: string, ok: set<NodeId>, bad: set<NodeId>, min: nat) {
    && c in db.chunks && ok <= db.nodes.Keys && IsHexDigest(sum)
    && |AvailableNodes(CommitRows(db, c, ok, bad).replicas, c)| >= min
  }

  function CommitChunk(db: Db, c: ChunkId, sum: string, size: nat, ok: set<NodeId>, bad: set<NodeId>, min: nat): (d: Db)
    ensures OnlyObjects(db, d)
  {
    if !CommitAccepted(db, c, sum, ok, bad, min) then db
    else
      var done := CommitRows(db, c, ok, bad);
      done.(chunks := done.chunks[c := done.chunks[c].(checksum := sum, size := size, state := Committed)])
  }

  // ------------------------------------------------------------------ objects

  function BeginUpload(db: Db, id: ObjectId, k: Key): (d: Db)
    ensures OnlyObjects(db, d)
  {
    if id in db.objects then db
    else db.(objects := db.objects[id := ObjectRow(k, Uploading, 0, 0)])
  }

  function OwnedByObjects(chunks: map<ChunkId, ChunkRow>, os: set<ObjectId>): set<ChunkId> {
    set c | c in chunks && chunks[c].owner.ObjectOwner? && chunks[c].owner.oid in os
  }

  function SetObjectStates(db: Db, os: set<ObjectId>, st: ObjectState): (d: Db)
    ensures OnlyObjects(db, d)
  {
    db.(objects := map o | o in db.objects :: if o in os then db.objects[o].(state := st) else db.objects[o])
  }

  function OrphanChunks(db: Db, cs: set<ChunkId>): (d: Db)
    ensures OnlyObjects(db, d)
    ensures d.chunks.Keys == db.chunks.Keys
  {
    db.(chunks := map c | c in db.chunks :: if c in cs then db.chunks[c].(state := Orphaned) else db.chunks[c])
  }

  /** Retires the current version of a key, other than `keep`, and queues its replicas. */
  function Supersede(db: Db, k: Key, keep: ObjectId): (d: Db)
    ensures OnlyObjects(db, d)
  {
    var prior := CompleteVersions(db.objects, k) - {keep};
    RetireChunks(SetObjectStates(db, prior, Retiring), OwnedByObjects(db.chunks, prior))
  }

  /** Every chunk the client claims to have written is there and COMMITTED. */
  predicate AllCommitted(chunks: map<ChunkId, ChunkRow>, owner: Owner, count: nat) {
    && |Owned(chunks, owner)| == count
    && forall c | c in Owned(chunks, owner) :: chunks[c].state == Committed
  }

  predicate CompleteAccepted(db: Db, o: ObjectId, count: nat) {
    && o in db.objects && db.objects[o].state == Uploading
    && AllCommitted(db.chunks, ObjectOwner(o), count)
  }

  /** Makes `o` the visible version of its key, retiring the previous one. */
  function Show(db: Db, o: ObjectId, size: nat, count: nat): (d: Db)
    ensures OnlyObjects(db, d)
    requires o in db.objects
  {
    var k := db.objects[o].key;
    var swapped := Supersede(db, k, o);
    swapped.(objects := swapped.objects[o := ObjectRow(k, Complete, size, count)])
  }

  function CompleteUpload(db: Db, o: ObjectId, size: nat, count: nat): (d: Db)
    ensures OnlyObjects(db, d)
  {
    if CompleteAccepted(db, o, count) then Show(db, o, size, count) else db
  }

  function InFlight(db: Db, os: set<ObjectId>): set<ObjectId> {
    set o | o in os && o in db.objects && db.objects[o].state == Uploading
  }

  /** Fails every in-flight upload in `os` and orphans its chunks. */
  function AbortUploads(db: Db, os: set<ObjectId>): (d: Db)
    ensures OnlyObjects(db, d)
  {
    var hit := InFlight(db, os);
    var cs := OwnedByObjects(db.chunks, hit);
    if hit == {} then db
    else RetireChunks(OrphanChunks(SetObjectStates(db, hit, Failed), cs), cs)
  }

  function DeleteObject(db: Db, k: Key): (d: Db)
    ensures OnlyObjects(db, d)
  {
    var prior := CompleteVersions(db.objects, k);
    if prior == {} then db
    else RetireChunks(SetObjectStates(db, prior, Retiring), OwnedByObjects(db.chunks, prior))
  }

  // ---------------------------------------------------------------- multipart

  function CreateMultipart(db: Db, u: UploadId, k: Key): (d: Db)
    ensures OnlyCatalog(db, d)
  {
    if u in db.uploads then db
    else db.(uploads := db.uploads[u := UploadRow(k, InProgress)])
  }

  function OwnedByParts(chunks: map<ChunkId, ChunkRow>, ps: set<PartId>): set<ChunkId> {
    set c | c in chunks && chunks[c].owner.PartOwner? && chunks[c].owner.pid in ps
  }

  function PartsOf(parts: map<PartId, PartRow>, u: UploadId): set<PartId> {
    set p | p in parts && parts[p].upload == u
  }

  function CompleteParts(parts: map<PartId, PartRow>, u: UploadId): set<PartId> {
    set p | p in parts && parts[p].upload == u && parts[p].state == PartComplete
  }

  function SetPartsFailed(db: Db, ps: set<PartId>): (d: Db)
    ensures OnlyCatalog(db, d)
  {
    db.(parts := map p | p in db.parts :: if p in ps then db.parts[p].(state := PartFailed) else db.parts[p])
  }

  /** Fails the given parts, orphans their chunks and queues the replicas. */
  function FailParts(db: Db, ps: set<PartId>): (d: Db)
    ensures OnlyCatalog(db, d)
  {
    var cs := OwnedByParts(db.chunks, ps);
    RetireChunks(OrphanChunks(SetPartsFailed(db, ps), cs), cs)
  }

  function PriorAttempts(parts: map<PartId, PartRow>, u: UploadId, number: nat): set<PartId> {
    set p | p in PartsOf(parts, u) && parts[p].number == number && parts[p].state != PartFailed
  }

  function BeginPart(db: Db, p: PartId, u: UploadId, number: nat): (d: Db)
    ensures OnlyCatalog(db, d)
  {
    if !(1 <= number <= 10000) || u !in db.uploads || db.uploads[u].state != InProgress || p in db.parts then db
    else
      var cleared := FailParts(db, PriorAttempts(db.parts, u, number));
      cleared.(parts := cleared.parts[p := PartRow(u, number, PartUploading, 0, 0, "")])
  }

  predicate CompletePartAccepted(db: Db, p: PartId, count: nat) {
    && p in db.parts && db.parts[p].state == PartUploading
    && AllCommitted(db.chunks, PartOwner(p), count)
    && !(exists q :: q in CompleteParts(db.parts, db.parts[p].upload) && db.parts[q].number == db.parts[p].number)
  }

  function CompletePart(db: Db, p: PartId, size: nat, count: nat, etag: string): (d: Db)
    ensures OnlyCatalog(db, d)
  {
    if !CompletePartAccepted(db, p, count) then db
    else
      db.(parts := db.parts[p := db.parts[p].(state := PartComplete, size := size, chunkCount := count, etag := etag)])
  }

  datatype PartRef = PartRef(number: nat, etag: string)

  function TrimLeft(s: string): string {
    if s != [] && s[0] == '"' then TrimLeft(s[1..]) else s
  }

  function TrimRight(s: string): string {
    if s != [] && s[|s| - 1] == '"' then TrimRight(s[..|s| - 1]) else s
  }

  function TrimQuotes(s: string): string {
    TrimRight(TrimLeft(s))
  }

  /** Orders parts by number, as the part listing does. */
  function ByNumber(parts: map<PartId, PartRow>): (PartId, PartId) -> bool {
    (a: PartId, b: PartId) => a in parts && b in parts && parts[a].number < parts[b].number
  }

  /** A client manifest must list every complete part, in order, with matching ETags. */
  predicate ManifestMatches(db: Db, u: UploadId, manifest: seq<PartRef>) {
    var ps := CompleteParts(db.parts, u);
    manifest != [] ==>
      && |manifest| == |ps|
      && forall p | p in ps ::
           var i := Orders.Rank(ByNumber(db.parts), ps, p);
           && i < |manifest|
           && manifest[i].number == db.parts[p].number
           && (manifest[i].etag != "" ==> TrimQuotes(manifest[i].etag) == db.parts[p].etag)
  }

  /** Everything checked before chunks are re-parented. */
  predicate AssemblyAccepted(db: Db, u: UploadId, o: ObjectId, manifest: seq<PartRef>) {
    && u in db.uploads && db.uploads[u].state == InProgress && o !in db.objects
    && (manifest == [] ==> forall p | p in PartsOf(db.parts, u) :: db.parts[p].state != PartUploading)
    && CompleteParts(db.parts, u) != {}
    && ManifestMatches(db, u, manifest)
  }

  /** The chunks an assembly re-parents. */
  function Moved(parts: map<PartId, PartRow>, chunks: map<ChunkId, ChunkRow>, u: UploadId): set<ChunkId> {
    set c | c in OwnedByParts(chunks, CompleteParts(parts, u)) && chunks[c].state == Committed
  }

  function PartNumberOf(parts: map<PartId, PartRow>, chunks: map<ChunkId, ChunkRow>, c: ChunkId): nat {
    if c in chunks && chunks[c].owner.PartOwner? && chunks[c].owner.pid in parts
    then parts[chunks[c].owner.pid].number else 0
  }

  function IndexOf(chunks: map<ChunkId, ChunkRow>, c: ChunkId): nat {
    if c in chunks then chunks[c].index else 0
  }

  /** `ORDER BY part_number, chunk_index`. */
  function ByPartThenIndex(parts: map<PartId, PartRow>, chunks: map<ChunkId, ChunkRow>): (ChunkId, ChunkId) -> bool {
    (a: ChunkId, b: ChunkId) =>
      || PartNumberOf(parts, chunks, a) < PartNumberOf(parts, chunks, b)
      || (&& PartNumberOf(parts, chunks, a) == PartNumberOf(parts, chunks, b)
          && IndexOf(chunks, a) < IndexOf(chunks, b))
  }

  function ChunkCountOf(parts: map<PartId, PartRow>): PartId -> nat {
    (p: PartId) => if p in parts then parts[p].chunkCount else 0
  }

  function SizeOf(parts: map<PartId, PartRow>): PartId -> nat {
    (p: PartId) => if p in parts then parts[p].size else 0
  }

  ghost function DeclaredChunks(parts: map<PartId, PartRow>, ps: set<PartId>): nat {
    Sums.Sum(ps, ChunkCountOf(parts))
  }

  ghost function DeclaredSize(parts: map<PartId, PartRow>, ps: set<PartId>): nat {
    Sums.Sum(ps, SizeOf(parts))
  }

  /** `ROW_NUMBER() OVER (ORDER BY part_number, chunk_index) - 1`. */
  function NewIndex(parts: map<PartId, PartRow>, chunks: map<ChunkId, ChunkRow>, u: UploadId, c: ChunkId): nat {
    Orders.Rank(ByPartThenIndex(parts, chunks), Moved(parts, chunks, u), c)
  }

  /** The chunk table once the moved chunks belong to the new object, numbered by position. */
  function Renumbered(parts: map<PartId, PartRow>, chunks: map<ChunkId, ChunkRow>, u: UploadId,
                      o: ObjectId): map<ChunkId, ChunkRow> {
    map c | c in chunks ::
      if c in Moved(parts, chunks, u)
      then chunks[c].(owner := ObjectOwner(o), index := NewIndex(parts, chunks, u, c))
      else chunks[c]
  }

  function Reparent(db: Db, u: UploadId, o: ObjectId): (d: Db)
    ensures OnlyCatalog(db, d)
    ensures d.chunks.Keys == db.chunks.Keys
  {
    db.(chunks := Renumbered(db.parts, db.chunks, u, o))
  }

  /** Closes the session and opens the assembled object. */
  function OpenAssembly(db: Db, u: UploadId, o: ObjectId): (d: Db)
    requires u in db.uploads
    ensures OnlyCatalog(db, d)
  {
    var row := db.uploads[u];
    db.(uploads := db.uploads[u := row.(state := Completed)],
        objects := db.objects[o := ObjectRow(row.key, Uploading, 0, 0)])
  }

  function Assemble(db: Db, u: UploadId, o: ObjectId): (d: Db)
    requires u in db.uploads
    ensures OnlyCatalog(db, d)
  {
    Reparent(OpenAssembly(db, u, o), u, o)
  }

  /** What is left on the upload's parts after the assembly is garbage. */
  function DiscardLeftovers(db: Db, u: UploadId): (d: Db)
    ensures OnlyCatalog(db, d)
  {
    var cs := OwnedByParts(db.chunks, PartsOf(db.parts, u));
    OrphanChunks(RetireChunks(db, cs), cs)
  }

  /** The last check of an assembly: as many chunks moved as the parts declare. */
  ghost predicate AssemblyCommits(db: Db, u: UploadId, o: ObjectId, manifest: seq<PartRef>) {
    && AssemblyAccepted(db, u, o, manifest)
    && |Moved(db.parts, db.chunks, u)| == DeclaredChunks(db.parts, CompleteParts(db.parts, u))
  }

  ghost function CompleteMultipart(db: Db, u: UploadId, o: ObjectId, manifest: seq<PartRef>): (d: Db)
    ensures OnlyCatalog(db, d)
  {
    if !AssemblyCommits(db, u, o, manifest) then db
    else
      var ps := CompleteParts(db.parts, u);
      DiscardLeftovers(Show(Assemble(db, u, o), o, DeclaredSize(db.parts, ps), DeclaredChunks(db.parts, ps)), u)
  }

  function AbortMultipart(db: Db, u: UploadId): (d: Db)
    ensures OnlyCatalog(db, d)
  {
    if u !in db.uploads || db.uploads[u].state !in {InProgress, Completing} then db
    else
      var row := db.uploads[u];
      FailParts(db.(uploads := db.uploads[u := row.(state := Aborted)]), PartsOf(db.parts, u))
  }

  // ------------------------------------------------------------------- repair

  predicate NeedsRepair(db: Db, c: ChunkId, rf: nat) {
    && c in db.chunks && db.chunks[c].state == Committed && Live(db, c)
    && c in db.available && 0 < db.available[c] < rf
  }

  function NewJobs(db: Db, rf: nat, batch: set<ChunkId>): map<JobId, JobRow> {
    map c | c in batch && NeedsRepair(db, c, rf) && !HasActiveJob(db, c) ::
      JobId(c, db.serial) := JobRow(JobPending, 0, 0, db.now)
  }

  function EnqueueRepairs(db: Db, rf: nat, batch: set<ChunkId>): (d: Db)
    ensures OnlyQueue(db, d)
  {
    db.(jobs := db.jobs + NewJobs(db, rf, batch), serial := db.serial + 1)
  }

  function ReclaimLeases(db: Db): (d: Db)
    ensures OnlyQueue(db, d)
  {
    db.(jobs := map j | j in db.jobs ::
          if db.jobs[j].state == JobRunning && db.jobs[j].lease < db.now
          then db.jobs[j].(state := JobPending, lease := 0, due := db.now)
          else db.jobs[j])
  }

  function SetJob(db: Db, j: JobId, row: JobRow): (d: Db)
    ensures OnlyQueue(db, d)
  {
    db.(jobs := db.jobs[j := row])
  }

  predicate Claimable(db: Db, j: JobId) {
    j in db.jobs && db.jobs[j].state == JobPending && db.jobs[j].due <= db.now && j.chunk in db.chunks
  }

  function ClaimRepair(db: Db, j: JobId, lease: nat): (d: Db)
    ensures OnlyQueue(db, d)
  {
    if !Claimable(db, j) then db
    else
      var row := db.jobs[j];
      SetJob(db, j, row.(state := JobRunning, lease := db.now + lease, attempts := row.attempts + 1))
  }

  function CloseJob(db: Db, j: JobId): (d: Db)
    ensures OnlyQueue(db, d)
  {
    if j !in db.jobs then db
    else SetJob(db, j, db.jobs[j].(state := JobSucceeded, lease := 0))
  }

  function CompleteRepair(db: Db, j: JobId, dest: NodeId): (d: Db)
    ensures OnlyJobs(db, d)
  {
    if j.chunk !in db.chunks || dest !in db.nodes then db
    else CloseJob(SetReplica(db, Loc(j.chunk, dest), Available), j)
  }

  /** Would returning the job to the queue give its chunk a second active job? */
  predicate RequeueConflicts(db: Db, j: JobId) {
    exists i :: i in db.jobs && i != j && i.chunk == j.chunk && Active(db.jobs[i])
  }

  /** The job row after a failed attempt: FAILED at the attempt cap, else PENDING with a delay. */
  function RetryRow(row: JobRow, now: nat, backoff: nat, max: nat): JobRow {
    row.(state := if row.attempts >= max then JobFailed else JobPending, lease := 0, due := now + backoff)
  }

  function FailRepair(db: Db, j: JobId, backoff: nat, max: nat): (d: Db)
    ensures OnlyQueue(db, d)
  {
    if j !in db.jobs || (db.jobs[j].attempts < max && RequeueConflicts(db, j)) then db
    else SetJob(db, j, RetryRow(db.jobs[j], db.now, backoff, max))
  }

  /** FAILED jobs a requeue statement would set back to PENDING. */
  function Requeueable(db: Db, batch: set<JobId>): set<JobId> {
    set j | && j in batch && j in db.jobs && db.jobs[j].state == JobFailed
            && j.chunk in db.chunks && db.chunks[j.chunk].state == Committed
            && !HasActiveJob(db, j.chunk)
  }

  /** Two picked jobs on one chunk violate the unique index, which aborts the statement. */
  predicate RequeueAborts(db: Db, batch: set<JobId>) {
    var js := Requeueable(db, batch);
    exists i, j :: i in js && j in js && i != j && i.chunk == j.chunk
  }

  function Revive(db: Db, js: set<JobId>): (d: Db)
    ensures OnlyQueue(db, d)
  {
    db.(jobs := map j | j in db.jobs ::
          if j in js then db.jobs[j].(state := JobPending, attempts := 0, due := db.now) else db.jobs[j])
  }

  function RequeueFailed(db: Db, batch: set<JobId>): (d: Db)
    ensures OnlyQueue(db, d)
  {
    if RequeueAborts(db, batch) then db else Revive(db, Requeueable(db, batch))
  }

  function PurgeJobs(db: Db, rf: nat, batch: set<JobId>): (d: Db)
    ensures OnlyQueue(db, d)
  {
    var gone := set j | && j in batch && j in db.jobs
                        && (|| db.jobs[j].state == JobSucceeded
                            || (&& db.jobs[j].state == JobFailed
                                && (j.chunk in db.available ==> db.available[j.chunk] >= rf)));
    db.(jobs := db.jobs - gone)
  }

  /** Emptiest node first, then lowest id: the order in which surplus replicas are kept. */
  function Emptier(nodes: map<NodeId, NodeRow>): (NodeId, NodeId) -> bool {
    (a: NodeId, b: NodeId) =>
      var ua := if a in nodes then nodes[a].used else 0;
      var ub := if b in nodes then nodes[b].used else 0;
      ua < ub || (ua == ub && a < b)
  }

  /** Replicas ranked beyond the replication factor. */
  function Surplus(db: Db, c: ChunkId, rf: nat): set<NodeId> {
    var here := AvailableNodes(db.replicas, c);
    here - Orders.Top(Emptier(db.nodes), here, rf)
  }

  function DeletingRows(db: Db, c: ChunkId): set<Loc> {
    set l | l in db.replicas && l.chunk == c && db.replicas[l] == Deleting
  }

  /** Marks the victims DELETING and makes sure every DELETING row of the chunk has a job. */
  function Demote(db: Db, c: ChunkId, victims: set<NodeId>): (d: Db)
    ensures OnlyReplicas(db, d)
  {
    var demoted := WriteReplicas(db, RowsOn(c, victims, Deleting), {});
    InsertDeletions(demoted, DeletingRows(demoted, c))
  }

  /** One trim transaction. The counter only decides whether to look; ranks decide who goes. */
  function TrimChunk(db: Db, c: ChunkId, rf: nat): (d: Db)
    ensures OnlyReplicas(db, d)
  {
    if c !in db.chunks || c !in db.available || db.available[c] <= rf then db
    else Demote(db, c, Surplus(db, c, rf))
  }

  function VerifyCounters(db: Db): (d: Db)
    ensures OnlyReplicas(db, d)
  {
    db.(available := map c | c in db.available :: |AvailableNodes(db.replicas, c)| as int)
  }

  // ----------------------------------------------------------------------- gc

  function ClaimDeletions(db: Db, batch: set<Loc>, lease: nat): (d: Db)
    ensures OnlyReplicas(db, d)
    ensures d.nodes == db.nodes
  {
    db.(deletions := map l | l in db.deletions ::
          var row := db.deletions[l];
          if l in batch && row.due <= db.now then row.(attempts := row.attempts + 1, due := db.now + lease) else row)
  }

  /** Removes the job only if it is still the one that was claimed. */
  function RemoveDeletion(db: Db, l: Loc, serial: nat): (d: Db)
    ensures OnlyReplicas(db, d)
    ensures d.nodes == db.nodes
  {
    if l in db.deletions && db.deletions[l].serial == serial then db.(deletions := db.deletions - {l}) else db
  }

  function FinishDeletion(db: Db, l: Loc, serial: nat): (d: Db)
    ensures OnlyReplicas(db, d)
    ensures d.nodes == db.nodes
  {
    RemoveDeletion(WriteReplicas(db, map[], {l}), l, serial)
  }

  /** Giving up on a job takes its DELETING row along, or the row would pin the object forever. */
  function ExpireDeletion(db: Db, l: Loc, serial: nat): (d: Db)
    ensures OnlyReplicas(db, d)
    ensures d.nodes == db.nodes
  {
    RemoveDeletion(WriteReplicas(db, map[], DeletingRows(db, l.chunk) * {l}), l, serial)
  }

  function FailDeletion(db: Db, l: Loc, serial: nat, backoff: nat, max: nat): (d: Db)
    ensures OnlyReplicas(db, d)
    ensures d.nodes == db.nodes
  {
    if l !in db.deletions || db.deletions[l].serial != serial then db
    else if db.deletions[l].attempts >= max then
      ExpireDeletion(db, l, serial)
    else db.(deletions := db.deletions[l := db.deletions[l].(due := db.now + backoff)])
  }

  /** Nothing on any node is still known under this chunk's name. */
  predicate Reclaimed(db: Db, c: ChunkId) {
    && (forall l | l in db.replicas :: l.chunk != c)
    && (forall l | l in db.deletions :: l.chunk != c)
  }

  /** Deletes chunk rows; their repair jobs go with them. */
  function DropChunks(db: Db, cs: set<ChunkId>): Db {
    db.(chunks := db.chunks - cs,
        available := db.available - cs,
        jobs := map j | j in db.jobs && j.chunk !in cs :: db.jobs[j])
  }

  function PurgeableChunks(db: Db, batch: set<ChunkId>): set<ChunkId> {
    set c | c in batch && c in db.chunks && db.chunks[c].state == Orphaned && Reclaimed(db, c)
  }

  function PurgeableObjects(db: Db, batch: set<ObjectId>): set<ObjectId> {
    set o | && o in batch && o in db.objects && db.objects[o].state in {Retiring, Failed}
            && forall c | c in Owned(db.chunks, ObjectOwner(o)) :: Reclaimed(db, c)
  }

  function PurgeReclaimed(db: Db, cs: set<ChunkId>, os: set<ObjectId>): Db {
    var first := DropChunks(db, PurgeableChunks(db, cs));
    var gone := PurgeableObjects(first, os);
    DropChunks(first, OwnedByObjects(first.chunks, gone)).(objects := first.objects - gone)
  }

  function PurgeUploads(db: Db, us: set<UploadId>): (d: Db)
    ensures OnlyCatalog(db, d)
  {
    var gone := set u | && u in us && u in db.uploads && db.uploads[u].state in {Completed, Aborted}
                        && OwnedByParts(db.chunks, PartsOf(db.parts, u)) == {};
    db.(uploads := db.uploads - gone,
        parts := map p | p in db.parts && db.parts[p].upload !in gone :: db.parts[p])
  }

  // --------------------------------------------------------------------- runs

  datatype ReplicaStep =
    | DoRecordNode(n: NodeId, row: NodeRow)
    | DoSetNodeHealth(n: NodeId, h: Health)
    | DoMarkStale(n: NodeId)
    | DoPromote(l: Loc)
    | DoMarkCorrupt(l: Loc)
    | DoDropReplica(l: Loc)
    | DoQueueOrphan(l: Loc)
    | DoRecordTargets(c: ChunkId, ns: set<NodeId>)
    | DoTrim(c: ChunkId, rf: nat)
    | DoVerifyCounters

  datatype UploadStep =
    | DoReserve(id: ChunkId, owner: Owner, index: nat, size: nat)
    | DoCommit(c: ChunkId, sum: string, size: nat, ok: set<NodeId>, bad: set<NodeId>, min: nat)
    | DoBeginUpload(o: ObjectId, k: Key)
    | DoCompleteUpload(o: ObjectId, size: nat, count: nat)
    | DoAbortUploads(os: set<ObjectId>)
    | DoDeleteObject(k: Key)

  datatype MultipartStep =
    | DoCreateMultipart(u: UploadId, k: Key)
    | DoBeginPart(p: PartId, u: UploadId, number: nat)
    | DoCompletePart(p: PartId, size: nat, count: nat, etag: string)
    | DoCompleteMultipart(u: UploadId, o: ObjectId, manifest: seq<PartRef>)
    | DoAbortMultipart(u: UploadId)
    | DoPurgeUploads(us: set<UploadId>)

  datatype RepairStep =
    | DoEnqueue(rf: nat, chunks: set<ChunkId>)
    | DoReclaimLeases
    | DoClaim(j: JobId, lease: nat)
    | DoCompleteRepair(j: JobId, dest: NodeId)
    | DoCloseJob(j: JobId)
    | DoFailRepair(j: JobId, backoff: nat, max: nat)
    | DoRequeue(jobs: set<JobId>)
    | DoPurgeJobs(rf: nat, jobs: set<JobId>)

  datatype GcStep =
    | DoClaimDeletions(locs: set<Loc>, lease: nat)
    | DoFinishDeletion(l: Loc, serial: nat)
    | DoFailDeletion(l: Loc, serial: nat, backoff: nat, max: nat)
    | DoPurge(cs: set<ChunkId>, os: set<ObjectId>)

  datatype Step =
    | OnReplicas(r: ReplicaStep)
    | OnUploads(u: UploadStep)
    | OnMultipart(m: MultipartStep)
    | OnRepairs(j: RepairStep)
    | OnGc(g: GcStep)
    | Tick(dt: nat)

  function ApplyReplica(db: Db, s: ReplicaStep): (d: Db)
    ensures OnlyReplicas(db, d)
  {
    match s
    case DoRecordNode(n, row) => RecordNode(db, n, row)
    case DoSetNodeHealth(n, h) => SetNodeHealth(db, n, h)
    case DoMarkStale(n) => MarkReplicasStale(db, n)
    case DoPromote(l) => PromoteVerified(db, l)
    case DoMarkCorrupt(l) => MarkCorrupt(db, l)
    case DoDropReplica(l) => DropReplica(db, l)
    case DoQueueOrphan(l) => QueueOrphan(db, l)
    case DoRecordTargets(c, ns) => RecordTargets(db, c, ns)
    case DoTrim(c, rf) => TrimChunk(db, c, rf)
    case DoVerifyCounters => VerifyCounters(db)
  }

  function ApplyUpload(db: Db, s: UploadStep): (d: Db)
    ensures OnlyObjects(db, d)
  {
    match s
    case DoReserve(id, owner, index, size) => ReserveChunk(db, id, owner, index, size)
    case DoCommit(c, sum, size, ok, bad, min) => CommitChunk(db, c, sum, size, ok, bad, min)
    case DoBeginUpload(o, k) => BeginUpload(db, o, k)
    case DoCompleteUpload(o, size, count) => CompleteUpload(db, o, size, count)
    case DoAbortUploads(os) => AbortUploads(db, os)
    case DoDeleteObject(k) => DeleteObject(db, k)
  }

  ghost function ApplyMultipart(db: Db, s: MultipartStep): (d: Db)
    ensures OnlyCatalog(db, d)
  {
    match s
    case DoCreateMultipart(u, k) => CreateMultipart(db, u, k)
    case DoBeginPart(p, u, number) => BeginPart(db, p, u, number)
    case DoCompletePart(p, size, count, etag) => CompletePart(db, p, size, count, etag)
    case DoCompleteMultipart(u, o, manifest) => CompleteMultipart(db, u, o, manifest)
    case DoAbortMultipart(u) => AbortMultipart(db, u)
    case DoPurgeUploads(us) => PurgeUploads(db, us)
  }

  function ApplyRepair(db: Db, s: RepairStep): (d: Db)
    ensures OnlyJobs(db, d)
  {
    match s
    case DoEnqueue(rf, cs) => EnqueueRepairs(db, rf, cs)
    case DoReclaimLeases => ReclaimLeases(db)
    case DoClaim(j, lease) => ClaimRepair(db, j, lease)
    case DoCompleteRepair(j, dest) => CompleteRepair(db, j, dest)
    case DoCloseJob(j) => CloseJob(db, j)
    case DoFailRepair(j, backoff, max) => FailRepair(db, j, backoff, max)
    case DoRequeue(js) => RequeueFailed(db, js)
    case DoPurgeJobs(rf, js) => PurgeJobs(db, rf, js)
  }

  function ApplyGc(db: Db, s: GcStep): Db {
    match s
    case DoClaimDeletions(ls, lease) => ClaimDeletions(db, ls, lease)
    case DoFinishDeletion(l, serial) => FinishDeletion(db, l, serial)
    case DoFailDeletion(l, serial, backoff, max) => FailDeletion(db, l, serial, backoff, max)
    case DoPurge(cs, os) => PurgeReclaimed(db, cs, os)
  }

  ghost function Apply(db: Db, s: Step): Db {
    match s
    case OnReplicas(r) => ApplyReplica(db, r)
    case OnUploads(u) => ApplyUpload(db, u)
    case OnMultipart(m) => ApplyMultipart(db, m)
    case OnRepairs(j) => ApplyRepair(db, j)
    case OnGc(g) => ApplyGc(db, g)
    case Tick(dt) => db.(now := db.now + dt)
  }

  /** The tables after a sequence of steps. */
  ghost function Run(db: Db, steps: seq<Step>): Db
    decreases |steps|
  {
    if steps == [] then db
    else Apply(Run(db, steps[..|steps| - 1]), steps[|steps| - 1])
  }
}
