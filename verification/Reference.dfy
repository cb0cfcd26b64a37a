/**
 What every transaction means for one row of one table, read off its statements.

 The transactions are written on whole tables. Here each is described from the point of view of a single
 row: what the row holds afterwards, given what the tables held before. `Refinement` proves that the two agree
 for every step and every row.
 */
module Reference {
  import opened Tables
  import opened Transactions
  import opened Trim
  import Sums

  /** What a table holds under a key. */
  datatype Cell<T> = Absent | Is(value: T)

  function At<K, V>(m: map<K, V>, k: K): Cell<V> {
    if k in m then Is(m[k]) else Absent
  }

  // ------------------------------------------------------------ when a transaction acts

  ghost predicate HexDigest(s: string) {
    |s| == 64 && forall i | 0 <= i < |s| :: s[i] in "0123456789abcdef"
  }

  /** Enough of the chunk's replicas count after the failures and the successes. */
  ghost predicate Commits(db: Db, c: ChunkId, sum: string, ok: set<NodeId>, bad: set<NodeId>, min: nat) {
    && c in db.chunks && ok <= db.nodes.Keys && HexDigest(sum)
    && |(AvailableNodes(db.replicas, c) - bad) + ok| >= min
  }

  ghost predicate Open(db: Db, owner: Owner) {
    match owner
    case ObjectOwner(o) => o in db.objects && db.objects[o].state == Uploading
    case PartOwner(p) => p in db.parts && db.parts[p].state == PartUploading
  }

  /** Every chunk of the owner is COMMITTED, and there are as many as declared. */
  ghost predicate Full(chunks: map<ChunkId, ChunkRow>, owner: Owner, count: nat) {
    && (forall c | c in chunks && chunks[c].owner == owner :: chunks[c].state == Committed)
    && |set c | c in chunks && chunks[c].owner == owner| == count
  }

  ghost predicate Completes(db: Db, o: ObjectId, count: nat) {
    o in db.objects && db.objects[o].state == Uploading && Full(db.chunks, ObjectOwner(o), count)
  }

  ghost predicate Begins(db: Db, p: PartId, u: UploadId, number: nat) {
    1 <= number <= 10000 && u in db.uploads && db.uploads[u].state == InProgress && p !in db.parts
  }

  /** No other part of the session has been completed under the number. */
  ghost predicate PartCompletes(db: Db, p: PartId, count: nat) {
    && p in db.parts && db.parts[p].state == PartUploading && Full(db.chunks, PartOwner(p), count)
    && forall q | q in db.parts && db.parts[q].upload == db.parts[p].upload && db.parts[q].state == PartComplete ::
         db.parts[q].number != db.parts[p].number
  }

  ghost predicate Aborts(db: Db, u: UploadId) {
    u in db.uploads && db.uploads[u].state in {InProgress, Completing}
  }

  /** The object is a version of the key that readers are shown. */
  ghost predicate Shown(db: Db, o: ObjectId, k: Key) {
    o in db.objects && db.objects[o].key == k && db.objects[o].state == Complete
  }

  // ------------------------------------------------------------- when an assembly acts

  ghost predicate Finished(db: Db, u: UploadId, p: PartId) {
    p in db.parts && db.parts[p].upload == u && db.parts[p].state == PartComplete
  }

  /** A committed chunk of a finished part of the session. */
  ghost predicate Ready(db: Db, u: UploadId, c: ChunkId) {
    && c in db.chunks && db.chunks[c].state == Committed
    && db.chunks[c].owner.PartOwner? && Finished(db, u, db.chunks[c].owner.pid)
  }

  /** The finished parts of the session with a lower number. */
  ghost function Lower(db: Db, u: UploadId, p: PartId): set<PartId>
    requires p in db.parts
  {
    set q | q in db.parts && Finished(db, u, q) && db.parts[q].number < db.parts[p].number
  }

  /** The manifest names every finished part where its number puts it, and no entry contradicts an ETag. */
  ghost predicate Lists(db: Db, u: UploadId, manifest: seq<PartRef>) {
    && |manifest| == |set p | p in db.parts && Finished(db, u, p)|
    && forall p | Finished(db, u, p) ::
         var i := |Lower(db, u, p)|;
         && i < |manifest| && manifest[i].number == db.parts[p].number
         && (manifest[i].etag != "" ==> TrimQuotes(manifest[i].etag) == db.parts[p].etag)
  }

  /** The size each part was completed with. */
  ghost function Sizes(db: Db): PartId -> nat {
    (p: PartId) => if p in db.parts then db.parts[p].size else 0
  }

  /** The number of chunks each part was completed with. */
  ghost function Counts(db: Db): PartId -> nat {
    (p: PartId) => if p in db.parts then db.parts[p].chunkCount else 0
  }

  /** What the finished parts of a session said of themselves, added up. */
  ghost function Total(db: Db, u: UploadId, said: PartId -> nat): nat {
    Sums.Sum((set p: PartId | p in db.parts && Finished(db, u, p)), said)
  }

  ghost predicate Assembles(db: Db, u: UploadId, o: ObjectId, manifest: seq<PartRef>) {
    && u in db.uploads && db.uploads[u].state == InProgress && o !in db.objects
    && (exists p :: Finished(db, u, p))
    && (if manifest != [] then Lists(db, u, manifest)
        else forall p | p in db.parts && db.parts[p].upload == u :: db.parts[p].state != PartUploading)
    && |set c | c in db.chunks && Ready(db, u, c)| == Total(db, u, Counts(db))
  }

  // ------------------------------------------------------------------ what it ends

  /** The step ends this object: deletes it, replaces it, or gives it up. */
  ghost predicate EndsObject(db: Db, s: Step, o: ObjectId) {
    match s
    case OnUploads(DoDeleteObject(k)) => Shown(db, o, k)
    case OnUploads(DoCompleteUpload(v, _, count)) => Completes(db, v, count) && Shown(db, o, db.objects[v].key)
    case OnUploads(DoAbortUploads(os)) => o in os && o in db.objects && db.objects[o].state == Uploading
    case OnMultipart(DoCompleteMultipart(u, v, manifest)) =>
      Assembles(db, u, v, manifest) && Shown(db, o, db.uploads[u].key)
    case _ => false
  }

  /** The step fails this part: supersedes it, or gives its session up. */
  ghost predicate FailsPart(db: Db, s: Step, p: PartId) {
    && p in db.parts
    && match s
       case OnMultipart(DoBeginPart(q, u, number)) =>
         && Begins(db, q, u, number)
         && db.parts[p].upload == u && db.parts[p].number == number && db.parts[p].state != PartFailed
       case OnMultipart(DoAbortMultipart(u)) => Aborts(db, u) && db.parts[p].upload == u
       case _ => false
  }

  /** An assembly takes the chunk over. */
  ghost predicate Takes(db: Db, s: Step, c: ChunkId) {
    match s
    case OnMultipart(DoCompleteMultipart(u, v, manifest)) => Assembles(db, u, v, manifest) && Ready(db, u, c)
    case _ => false
  }

  /** An assembly leaves the chunk behind on a part of its session. */
  ghost predicate LeavesBehind(db: Db, s: Step, c: ChunkId) {
    match s
    case OnMultipart(DoCompleteMultipart(u, v, manifest)) =>
      && Assembles(db, u, v, manifest) && !Takes(db, s, c)
      && c in db.chunks && db.chunks[c].owner.PartOwner?
      && db.chunks[c].owner.pid in db.parts && db.parts[db.chunks[c].owner.pid].upload == u
    case _ => false
  }

  /** Nobody will want the chunk again: its state becomes ORPHANED. */
  ghost predicate Orphans(db: Db, s: Step, c: ChunkId) {
    && c in db.chunks
    && match db.chunks[c].owner
       case ObjectOwner(o) => s.OnUploads? && s.u.DoAbortUploads? && EndsObject(db, s, o)
       case PartOwner(p) => FailsPart(db, s, p) || LeavesBehind(db, s, c)
  }

  /** Every replica of the chunk is to go. */
  ghost predicate Retires(db: Db, s: Step, c: ChunkId) {
    && c in db.chunks
    && (Orphans(db, s, c) || (db.chunks[c].owner.ObjectOwner? && EndsObject(db, s, db.chunks[c].owner.oid)))
  }

  // ------------------------------------------------------------------- replica rows

  ghost function ReplicaCell(db: Db, s: Step, l: Loc): Cell<ReplicaState> {
    match s
    case OnReplicas(r) => NodeStatement(db, r, l)
    case OnUploads(DoCommit(c, sum, size, ok, bad, min)) => CommittedRow(db, c, sum, ok, bad, min, l)
    case OnRepairs(DoCompleteRepair(j, dest)) =>
      if l == Loc(j.chunk, dest) && j.chunk in db.chunks && dest in db.nodes then Is(Available) else At(db.replicas, l)
    case OnGc(g) => CollectedRow(db, g, l)
    case _ => if Retires(db, s, l.chunk) && l in db.replicas then Is(Deleting) else At(db.replicas, l)
  }

  ghost function NodeStatement(db: Db, s: ReplicaStep, l: Loc): Cell<ReplicaState> {
    var was := At(db.replicas, l);
    match s
    case DoSetNodeHealth(n, h) =>
      if h == Dead && l.node == n && (was == Is(Available) || was == Is(Writing)) then Is(Unavailable) else was
    case DoMarkStale(n) => if l.node == n && was == Is(Unavailable) then Is(Stale) else was
    case DoPromote(k) => if l == k && was == Is(Stale) then Is(Available) else was
    case DoMarkCorrupt(k) =>
      if l == k && l.chunk in db.chunks && was.Is? && was != Is(Deleting) then Is(Corrupt) else was
    case DoDropReplica(k) => if l == k then Absent else was
    case DoRecordTargets(c, ns) =>
      if c in db.chunks && ns <= db.nodes.Keys && l.chunk == c && l.node in ns then Is(Writing) else was
    case DoTrim(c, rf) => if l.chunk == c && Demotes(db, c, rf, l.node) then Is(Deleting) else was
    case DoRecordNode(_, _) => was
    case DoQueueOrphan(_) => was
    case DoVerifyCounters => was
  }

  /** The trim acts, and the node is not among the `rf` emptiest that hold the chunk. */
  ghost predicate Demotes(db: Db, c: ChunkId, rf: nat, n: NodeId) {
    && c in db.chunks && c in db.available && db.available[c] > rf
    && n in AvailableNodes(db.replicas, c) && n !in Emptiest(db.nodes, AvailableNodes(db.replicas, c), rf)
  }

  ghost function CommittedRow(db: Db, c: ChunkId, sum: string, ok: set<NodeId>, bad: set<NodeId>, min: nat,
                              l: Loc): Cell<ReplicaState> {
    if !Commits(db, c, sum, ok, bad, min) || l.chunk != c then At(db.replicas, l)
    else if l.node in ok then Is(Available)
    else if l.node in bad && l in db.replicas then Is(Unavailable)
    else At(db.replicas, l)
  }

  ghost function CollectedRow(db: Db, s: GcStep, l: Loc): Cell<ReplicaState> {
    match s
    case DoFinishDeletion(k, serial) => if l == k then Absent else At(db.replicas, l)
    case DoFailDeletion(k, serial, backoff, max) =>
      if l == k && At(db.replicas, l) == Is(Deleting) && GivesUp(db, k, serial, max) then Absent else At(db.replicas, l)
    case DoClaimDeletions(_, _) => At(db.replicas, l)
    case DoPurge(_, _) => At(db.replicas, l)
  }

  /** The failed attempt was the job's last. */
  ghost predicate GivesUp(db: Db, l: Loc, serial: nat, max: nat) {
    l in db.deletions && db.deletions[l].serial == serial && db.deletions[l].attempts >= max
  }

  // ------------------------------------------------------------------ deletion jobs

  /** The step asks for a deletion here; one already queued is left alone. */
  ghost predicate Queues(db: Db, s: Step, l: Loc) {
    match s
    case OnReplicas(DoMarkCorrupt(k)) => l == k && k.chunk in db.chunks
    case OnReplicas(DoQueueOrphan(k)) =>
      l == k && k !in db.replicas && (k.chunk in db.chunks ==> db.chunks[k.chunk].state != Pending)
    case OnReplicas(DoTrim(c, rf)) =>
      && l.chunk == c && c in db.chunks && c in db.available && db.available[c] > rf
      && (At(db.replicas, l) == Is(Deleting) || Demotes(db, c, rf, l.node))
    case _ => Retires(db, s, l.chunk) && l in db.replicas && db.replicas[l] != Deleting
  }

  /** A job as it is first queued. */
  ghost predicate Fresh(db: Db, row: DeletionRow) {
    row.attempts == 0 && row.due == db.now && db.serial <= row.serial
  }

  ghost function DeletionCell(db: Db, s: Step, l: Loc): Cell<DeletionRow> {
    var was := At(db.deletions, l);
    match s
    case OnGc(DoClaimDeletions(ls, lease)) =>
      if was.Is? && l in ls && was.value.due <= db.now
      then Is(DeletionRow(was.value.serial, was.value.attempts + 1, db.now + lease)) else was
    case OnGc(DoFinishDeletion(k, serial)) =>
      if l == k && was.Is? && was.value.serial == serial then Absent else was
    case OnGc(DoFailDeletion(k, serial, backoff, max)) =>
      if l != k || was.Absent? || was.value.serial != serial then was
      else if was.value.attempts >= max then Absent
      else Is(DeletionRow(serial, was.value.attempts, db.now + backoff))
    case _ => was
  }

  /** A queued job is what the collector makes of it; a new one appears exactly where the step asks for it. */
  ghost predicate DeletionMatches(db: Db, d: Db, s: Step, l: Loc) {
    if l !in db.deletions && Queues(db, s, l) then l in d.deletions && Fresh(db, d.deletions[l])
    else At(d.deletions, l) == DeletionCell(db, s, l)
  }

  // -------------------------------------------------------------------- chunk rows

  /** The chunk goes out of the table: orphaned and reclaimed, or with its object. */
  ghost predicate Purges(db: Db, s: Step, c: ChunkId) {
    match s
    case OnGc(DoPurge(cs, os)) =>
      && c in db.chunks
      && (|| (c in cs && db.chunks[c].state == Orphaned && Clear(db, c))
          || (db.chunks[c].owner.ObjectOwner? && PurgesObject(db, s, db.chunks[c].owner.oid)))
    case _ => false
  }

  ghost predicate PurgesObject(db: Db, s: Step, o: ObjectId) {
    match s
    case OnGc(DoPurge(cs, os)) =>
      && o in os && o in db.objects && db.objects[o].state in {Retiring, Failed}
      && forall c | c in db.chunks && db.chunks[c].owner == ObjectOwner(o) :: Clear(db, c)
    case _ => false
  }

  /** No replica row and no deletion job is left under the chunk's name. */
  ghost predicate Clear(db: Db, c: ChunkId) {
    forall n: NodeId :: Loc(c, n) !in db.replicas && Loc(c, n) !in db.deletions
  }

  /** The chunk's place among those an assembly takes over: parts by number, chunks by index. */
  ghost function Place(db: Db, s: Step, c: ChunkId): nat {
    |set x | x in db.chunks && Takes(db, s, x) && ComesBefore(db, x, c)|
  }

  ghost predicate ComesBefore(db: Db, x: ChunkId, c: ChunkId) {
    && x in db.chunks && c in db.chunks && db.chunks[x].owner.PartOwner? && db.chunks[c].owner.PartOwner?
    && var p, q := db.chunks[x].owner.pid, db.chunks[c].owner.pid;
    && p in db.parts && q in db.parts
    && (|| db.parts[p].number < db.parts[q].number
        || (db.parts[p].number == db.parts[q].number && db.chunks[x].index < db.chunks[c].index))
  }

  /** The position is taken by this chunk. */
  ghost predicate Holds(db: Db, c: ChunkId, owner: Owner, index: nat) {
    c in db.chunks && db.chunks[c].owner == owner && db.chunks[c].index == index
  }

  ghost function ChunkCell(db: Db, s: Step, c: ChunkId): Cell<ChunkRow> {
    var was := At(db.chunks, c);
    if Purges(db, s, c) then Absent
    else if Orphans(db, s, c) then Is(db.chunks[c].(state := Orphaned))
    else
      match s
      case OnUploads(DoReserve(id, owner, index, size)) =>
        if !Open(db, owner) then was
        else if Holds(db, c, owner, index) then Is(ChunkRow(owner, index, size, db.chunks[c].checksum, Pending))
        else if c == id && was.Absent? && id != 0 && (forall x :: !Holds(db, x, owner, index))
        then Is(ChunkRow(owner, index, size, "", Pending))
        else was
      case OnUploads(DoCommit(k, sum, size, ok, bad, min)) =>
        if c == k && Commits(db, k, sum, ok, bad, min)
        then Is(ChunkRow(db.chunks[c].owner, db.chunks[c].index, size, sum, Committed)) else was
      case OnMultipart(DoCompleteMultipart(u, v, manifest)) =>
        if Takes(db, s, c) then Is(db.chunks[c].(owner := ObjectOwner(v), index := Place(db, s, c))) else was
      case _ => was
  }

  // ------------------------------------------------------- objects, sessions, parts, nodes

  ghost function ObjectCell(db: Db, s: Step, o: ObjectId): Cell<ObjectRow> {
    var was := At(db.objects, o);
    if PurgesObject(db, s, o) then Absent
    else if EndsObject(db, s, o) then
      Is(db.objects[o].(state := if s.OnUploads? && s.u.DoAbortUploads? then Failed else Retiring))
    else
      match s
      case OnUploads(DoBeginUpload(v, k)) => if o == v && was.Absent? then Is(ObjectRow(k, Uploading, 0, 0)) else was
      case OnUploads(DoCompleteUpload(v, size, count)) =>
        if o == v && Completes(db, v, count) then Is(ObjectRow(db.objects[v].key, Complete, size, count)) else was
      case OnMultipart(DoCompleteMultipart(u, v, manifest)) =>
        if o == v && Assembles(db, u, v, manifest)
        then Is(ObjectRow(db.uploads[u].key, Complete, Total(db, u, Sizes(db)), Total(db, u, Counts(db)))) else was
      case _ => was
  }

  ghost function UploadCell(db: Db, s: Step, u: UploadId): Cell<UploadRow> {
    var was := At(db.uploads, u);
    match s
    case OnMultipart(DoCreateMultipart(v, k)) => if u == v && was.Absent? then Is(UploadRow(k, InProgress)) else was
    case OnMultipart(DoCompleteMultipart(v, o, manifest)) =>
      if u == v && Assembles(db, v, o, manifest) then Is(UploadRow(db.uploads[v].key, Completed)) else was
    case OnMultipart(DoAbortMultipart(v)) =>
      if u == v && Aborts(db, v) then Is(UploadRow(db.uploads[v].key, Aborted)) else was
    case OnMultipart(DoPurgeUploads(us)) => if Forgets(db, us, u) then Absent else was
    case _ => was
  }

  /** A finished session without a chunk left on any of its parts. */
  ghost predicate Forgets(db: Db, us: set<UploadId>, u: UploadId) {
    && u in us && u in db.uploads && db.uploads[u].state in {Completed, Aborted}
    && forall c | c in db.chunks && db.chunks[c].owner.PartOwner? && db.chunks[c].owner.pid in db.parts ::
         db.parts[db.chunks[c].owner.pid].upload != u
  }

  ghost function PartCell(db: Db, s: Step, p: PartId): Cell<PartRow> {
    var was := At(db.parts, p);
    if FailsPart(db, s, p) then Is(db.parts[p].(state := PartFailed))
    else
      match s
      case OnMultipart(DoBeginPart(q, u, number)) =>
        if p == q && Begins(db, q, u, number) then Is(PartRow(u, number, PartUploading, 0, 0, "")) else was
      case OnMultipart(DoCompletePart(q, size, count, etag)) =>
        if p == q && PartCompletes(db, q, count)
        then Is(PartRow(db.parts[q].upload, db.parts[q].number, PartComplete, size, count, etag)) else was
      case OnMultipart(DoPurgeUploads(us)) =>
        if was.Is? && Forgets(db, us, db.parts[p].upload) then Absent else was
      case _ => was
  }

  ghost function NodeCell(db: Db, s: Step, n: NodeId): Cell<NodeRow> {
    var was := At(db.nodes, n);
    match s
    case OnReplicas(DoRecordNode(m, row)) => if n == m then Is(row) else was
    case OnReplicas(DoSetNodeHealth(m, h)) => if n == m && was.Is? then Is(NodeRow(h, was.value.used)) else was
    case _ => was
  }

  // -------------------------------------------------------------------- repair jobs

  /** The owner still wants the chunk. */
  ghost predicate WantedBy(db: Db, owner: Owner) {
    match owner
    case ObjectOwner(o) => o in db.objects && db.objects[o].state in {Complete, Uploading}
    case PartOwner(p) =>
      && p in db.parts && db.parts[p].state in {PartUploading, PartComplete}
      && db.parts[p].upload in db.uploads && db.uploads[db.parts[p].upload].state == InProgress
  }

  ghost predicate Busy(db: Db, c: ChunkId) {
    exists j :: j in db.jobs && j.chunk == c && db.jobs[j].state in {JobPending, JobRunning}
  }

  /** The scanner finds the chunk committed, wanted, short of copies but not without, and without an active job. */
  ghost predicate Scans(db: Db, rf: nat, cs: set<ChunkId>, c: ChunkId) {
    && c in cs && c in db.chunks && db.chunks[c].state == Committed && WantedBy(db, db.chunks[c].owner)
    && c in db.available && 0 < db.available[c] < rf && !Busy(db, c)
  }

  /** A FAILED job that may be tried again. */
  ghost predicate Eligible(db: Db, js: set<JobId>, j: JobId) {
    && j in js && j in db.jobs && db.jobs[j].state == JobFailed
    && j.chunk in db.chunks && db.chunks[j.chunk].state == Committed && !Busy(db, j.chunk)
  }

  /** Two eligible jobs on one chunk abort the statement. */
  ghost predicate Collides(db: Db, js: set<JobId>) {
    exists i, j :: Eligible(db, js, i) && Eligible(db, js, j) && i != j && i.chunk == j.chunk
  }

  ghost function JobCell(db: Db, s: Step, j: JobId): Cell<JobRow> {
    var was := At(db.jobs, j);
    if Purges(db, s, j.chunk) then Absent
    else
      match s
      case OnRepairs(DoEnqueue(rf, cs)) =>
        if j.serial == db.serial && Scans(db, rf, cs, j.chunk) then Is(JobRow(JobPending, 0, 0, db.now)) else was
      case OnRepairs(DoReclaimLeases) =>
        if was.Is? && was.value.state == JobRunning && was.value.lease < db.now
        then Is(JobRow(JobPending, was.value.attempts, 0, db.now)) else was
      case OnRepairs(DoClaim(k, lease)) =>
        if j == k && was.Is? && was.value.state == JobPending && was.value.due <= db.now && j.chunk in db.chunks
        then Is(JobRow(JobRunning, was.value.attempts + 1, db.now + lease, was.value.due)) else was
      case OnRepairs(DoCompleteRepair(k, dest)) =>
        if j == k && was.Is? && j.chunk in db.chunks && dest in db.nodes
        then Is(JobRow(JobSucceeded, was.value.attempts, 0, was.value.due)) else was
      case OnRepairs(DoCloseJob(k)) =>
        if j == k && was.Is? then Is(JobRow(JobSucceeded, was.value.attempts, 0, was.value.due)) else was
      case OnRepairs(DoFailRepair(k, backoff, max)) =>
        if j != k || was.Absent? || (was.value.attempts < max && BusyBesides(db, k)) then was
        else
          var spent := was.value.attempts;
          Is(JobRow(if spent >= max then JobFailed else JobPending, spent, 0, db.now + backoff))
      case OnRepairs(DoRequeue(js)) =>
        if Eligible(db, js, j) && !Collides(db, js)
        then Is(JobRow(JobPending, 0, was.value.lease, db.now)) else was
      case OnRepairs(DoPurgeJobs(rf, js)) =>
        if j in js && was.Is?
           && (|| was.value.state == JobSucceeded
               || (was.value.state == JobFailed && (j.chunk in db.available ==> db.available[j.chunk] >= rf)))
        then Absent else was
      case _ => was
  }

  ghost predicate BusyBesides(db: Db, j: JobId) {
    exists i :: i in db.jobs && i != j && i.chunk == j.chunk && db.jobs[i].state in {JobPending, JobRunning}
  }

  // ------------------------------------------------------------------ the whole step

  ghost predicate Matches(db: Db, s: Step, d: Db) {
    && (forall l :: At(d.replicas, l) == ReplicaCell(db, s, l))
    && (forall l :: DeletionMatches(db, d, s, l))
    && (forall c :: At(d.chunks, c) == ChunkCell(db, s, c))
    && (forall o :: At(d.objects, o) == ObjectCell(db, s, o))
    && (forall u :: At(d.uploads, u) == UploadCell(db, s, u))
    && (forall p :: At(d.parts, p) == PartCell(db, s, p))
    && (forall n :: At(d.nodes, n) == NodeCell(db, s, n))
    && (forall j :: At(d.jobs, j) == JobCell(db, s, j))
    && d.now == db.now + (if s.Tick? then s.dt else 0) && db.serial <= d.serial
  }
}
