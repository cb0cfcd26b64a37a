/**
 The store together with the memory of the workers acting on it: which repair job each
 worker holds and until when, and which deletion jobs the collector has claimed.

 A worker acts only while its lease runs. A worker that stops (crash, shutdown, timeout)
 is simply lost; its job stays in the tables.
 */
module Workers {
  import opened Tables
  import opened Transactions
  import opened Invariants

  type WorkerId = nat

  /** What a repair worker remembers: its job, the nodes it saw holding a row, its lease. */
  datatype Repairing = Repairing(job: JobId, occupied: set<NodeId>, until: nat)

  /** What the collector remembers of one claimed deletion. */
  datatype Sweeping = Sweeping(loc: Loc, serial: nat, until: nat)

  /** `lost` collects every node ever declared DEAD. */
  datatype System = System(
    db: Db,
    repairs: map<WorkerId, Repairing>,
    sweeps: map<WorkerId, Sweeping>,
    lost: set<NodeId>)

  const Boot := System(Empty, map[], map[], {})

  datatype Event =
    | Store(s: Step)
    | TakeJob(w: WorkerId, j: JobId, lease: nat)
    | FinishRepair(w: WorkerId, dest: NodeId)
    | DeferRepair(w: WorkerId)
    | GiveUpRepair(w: WorkerId, backoff: nat, max: nat)
    | LoseWorker(w: WorkerId)
    | TakeDeletion(g: WorkerId, l: Loc, lease: nat)
    | FinishSweep(g: WorkerId)
    | FailSweep(g: WorkerId, backoff: nat, max: nat)
    | LoseSweeper(g: WorkerId)

  /** Steps that are not the private business of a lease holder. */
  predicate Public(s: Step) {
    match s
    case OnRepairs(j) => !(j.DoClaim? || j.DoCompleteRepair? || j.DoCloseJob? || j.DoFailRepair?)
    case OnGc(g) => g.DoPurge?
    case _ => true
  }

  /** The worker holds a job and its lease has not run out. */
  predicate Holding(sys: System, w: WorkerId) {
    w in sys.repairs && sys.db.now <= sys.repairs[w].until
  }

  /** The collector holds the deletion and nobody may claim it yet. */
  predicate Sweeps(sys: System, g: WorkerId) {
    g in sys.sweeps && sys.db.now < sys.sweeps[g].until
  }

  function DeclaredDead(s: Step): set<NodeId> {
    match s
    case OnReplicas(DoSetNodeHealth(n, h)) => if h == Dead then {n} else {}
    case OnReplicas(DoRecordNode(n, row)) => if row.health == Dead then {n} else {}
    case _ => {}
  }

  ghost function ApplyStore(sys: System, s: Step): System {
    if Public(s) then sys.(db := Apply(sys.db, s), lost := sys.lost + DeclaredDead(s)) else sys
  }

  function DoTakeJob(sys: System, w: WorkerId, j: JobId, lease: nat): System {
    if w in sys.repairs || !Claimable(sys.db, j) then sys
    else
      sys.(db := ClaimRepair(sys.db, j, lease),
           repairs := sys.repairs[w := Repairing(j, RowNodes(sys.db.replicas, j.chunk), sys.db.now + lease)])
  }

  /** The copy succeeded: its destination was chosen outside every node seen at claim time. */
  function DoFinishRepair(sys: System, w: WorkerId, dest: NodeId): System {
    if !Holding(sys, w) || dest in sys.repairs[w].occupied then sys
    else sys.(db := CompleteRepair(sys.db, sys.repairs[w].job, dest), repairs := sys.repairs - {w})
  }

  function DoDeferRepair(sys: System, w: WorkerId): System {
    if !Holding(sys, w) then sys
    else sys.(db := CloseJob(sys.db, sys.repairs[w].job), repairs := sys.repairs - {w})
  }

  function DoGiveUpRepair(sys: System, w: WorkerId, backoff: nat, max: nat): System {
    if !Holding(sys, w) then sys
    else sys.(db := FailRepair(sys.db, sys.repairs[w].job, backoff, max), repairs := sys.repairs - {w})
  }

  function DoTakeDeletion(sys: System, g: WorkerId, l: Loc, lease: nat): System {
    if g in sys.sweeps || l !in sys.db.deletions || sys.db.deletions[l].due > sys.db.now then sys
    else
      sys.(db := ClaimDeletions(sys.db, {l}, lease),
           sweeps := sys.sweeps[g := Sweeping(l, sys.db.deletions[l].serial, sys.db.now + lease)])
  }

  function DoFinishSweep(sys: System, g: WorkerId): System {
    if !Sweeps(sys, g) then sys
    else sys.(db := FinishDeletion(sys.db, sys.sweeps[g].loc, sys.sweeps[g].serial), sweeps := sys.sweeps - {g})
  }

  function DoFailSweep(sys: System, g: WorkerId, backoff: nat, max: nat): System {
    if !Sweeps(sys, g) then sys
    else
      sys.(db := FailDeletion(sys.db, sys.sweeps[g].loc, sys.sweeps[g].serial, backoff, max),
           sweeps := sys.sweeps - {g})
  }

  /** One event; an event its guard forbids changes nothing. */
  ghost function React(sys: System, e: Event): System {
    match e
    case Store(s) => ApplyStore(sys, s)
    case TakeJob(w, j, lease) => DoTakeJob(sys, w, j, lease)
    case FinishRepair(w, dest) => DoFinishRepair(sys, w, dest)
    case DeferRepair(w) => DoDeferRepair(sys, w)
    case GiveUpRepair(w, backoff, max) => DoGiveUpRepair(sys, w, backoff, max)
    case LoseWorker(w) => sys.(repairs := sys.repairs - {w})
    case TakeDeletion(g, l, lease) => DoTakeDeletion(sys, g, l, lease)
    case FinishSweep(g) => DoFinishSweep(sys, g)
    case FailSweep(g, backoff, max) => DoFailSweep(sys, g, backoff, max)
    case LoseSweeper(g) => sys.(sweeps := sys.sweeps - {g})
  }

  ghost function Play(sys: System, events: seq<Event>): System
    decreases |events|
  {
    if events == [] then sys
    else React(Play(sys, events[..|events| - 1]), events[|events| - 1])
  }

  // -------------------------------------------------------------------- leases

  /** Repair jobs held within their lease are RUNNING under that very lease, by one worker each. */
  ghost predicate RepairLeases(sys: System) {
    && (forall w | Holding(sys, w) ::
          var r := sys.repairs[w];
          && r.job.serial < sys.db.serial
          && (r.job in sys.db.jobs ==> sys.db.jobs[r.job].state == JobRunning && sys.db.jobs[r.job].lease == r.until))
    && (forall v, w | Holding(sys, v) && Holding(sys, w) && sys.repairs[v].job == sys.repairs[w].job :: v == w)
  }

  /** Deletions held within their lease are still queued, not due, and held once. */
  ghost predicate SweepLeases(sys: System) {
    && (forall g | Sweeps(sys, g) ::
          var s := sys.sweeps[g];
          s.loc in sys.db.deletions && sys.db.deletions[s.loc].serial == s.serial
            && sys.db.deletions[s.loc].due == s.until)
    && (forall g, h | Sweeps(sys, g) && Sweeps(sys, h) && sys.sweeps[g].loc == sys.sweeps[h].loc :: g == h)
  }

  ghost predicate LeaseInv(sys: System) {
    RepairLeases(sys) && SweepLeases(sys)
  }

  /** Public steps leave running leases and queued deletions alone. */
  ghost predicate JobsKept(db: Db, d: Db) {
    && db.serial <= d.serial && db.now <= d.now
    && (forall j | j in db.jobs && j in d.jobs && db.jobs[j].state == JobRunning && d.now <= db.jobs[j].lease ::
          d.jobs[j] == db.jobs[j])
    && (forall j | j in d.jobs && j !in db.jobs :: db.serial <= j.serial)
    && (forall j | j in db.jobs && j !in d.jobs && db.jobs[j].state == JobRunning :: j.chunk !in d.chunks)
  }

  ghost predicate DeletionsKept(db: Db, d: Db) {
    && db.now <= d.now
    && forall l | l in db.deletions :: l in d.deletions && d.deletions[l] == db.deletions[l]
  }

  lemma PurgeQueues(db: Db, cs: set<ChunkId>, os: set<ObjectId>)
    ensures JobsKept(db, PurgeReclaimed(db, cs, os)) && DeletionsKept(db, PurgeReclaimed(db, cs, os))
  {
  }

  lemma EnqueueQueues(db: Db, rf: nat, batch: set<ChunkId>)
    requires OneJob(db)
    ensures JobsKept(db, EnqueueRepairs(db, rf, batch))
  {
    assert forall j | j in NewJobs(db, rf, batch) :: j.serial == db.serial;
  }

  lemma ReclaimQueues(db: Db)
    ensures JobsKept(db, ReclaimLeases(db))
  {
  }

  lemma RequeueQueues(db: Db, batch: set<JobId>)
    ensures JobsKept(db, RequeueFailed(db, batch))
  {
    assert forall j | j in Requeueable(db, batch) :: db.jobs[j].state == JobFailed;
  }

  lemma PurgeJobsQueues(db: Db, rf: nat, batch: set<JobId>)
    ensures JobsKept(db, PurgeJobs(db, rf, batch))
  {
  }

  lemma PublicRepair(db: Db, s: RepairStep)
    requires OneJob(db) && Public(OnRepairs(s))
    ensures JobsKept(db, ApplyRepair(db, s))
  {
    match s
    case DoEnqueue(rf, cs) => EnqueueQueues(db, rf, cs);
    case DoReclaimLeases => ReclaimQueues(db);
    case DoRequeue(js) => RequeueQueues(db, js);
    case DoPurgeJobs(rf, js) => PurgeJobsQueues(db, rf, js);
  }

  lemma InsertQueue(db: Db, ls: set<Loc>)
    ensures DeletionsKept(db, InsertDeletions(db, ls))
  {
  }

  lemma RetireQueue(db: Db, cs: set<ChunkId>)
    ensures DeletionsKept(db, RetireChunks(db, cs))
  {
  }

  lemma DemoteQueue(db: Db, c: ChunkId, victims: set<NodeId>)
    ensures DeletionsKept(db, Demote(db, c, victims))
  {
  }

  lemma CorruptQueue(db: Db, l: Loc)
    ensures DeletionsKept(db, MarkCorrupt(db, l))
  {
    InsertQueue(db, {l});
    InsertQueue(SetReplica(db, l, Corrupt), {l});
  }

  lemma ReplicaQueue(db: Db, s: ReplicaStep)
    ensures DeletionsKept(db, ApplyReplica(db, s))
  {
    match s
    case DoMarkCorrupt(l) => CorruptQueue(db, l);
    case DoQueueOrphan(l) => InsertQueue(db, {l});
    case DoTrim(c, rf) => DemoteQueue(db, c, Surplus(db, c, rf));
    case _ => assert ApplyReplica(db, s).deletions == db.deletions;
  }

  lemma ShowQueue(db: Db, o: ObjectId, size: nat, count: nat)
    requires o in db.objects
    ensures DeletionsKept(db, Show(db, o, size, count))
  {
    var prior := CompleteVersions(db.objects, db.objects[o].key) - {o};
    RetireQueue(SetObjectStates(db, prior, Retiring), OwnedByObjects(db.chunks, prior));
  }

  lemma AbortQueue(db: Db, os: set<ObjectId>)
    ensures DeletionsKept(db, AbortUploads(db, os))
  {
    var hit := InFlight(db, os);
    var cs := OwnedByObjects(db.chunks, hit);
    RetireQueue(OrphanChunks(SetObjectStates(db, hit, Failed), cs), cs);
  }

  lemma DeleteQueue(db: Db, k: Key)
    ensures DeletionsKept(db, DeleteObject(db, k))
  {
    var prior := CompleteVersions(db.objects, k);
    RetireQueue(SetObjectStates(db, prior, Retiring), OwnedByObjects(db.chunks, prior));
  }

  lemma UploadQueue(db: Db, s: UploadStep)
    ensures DeletionsKept(db, ApplyUpload(db, s))
  {
    match s
    case DoCompleteUpload(o, size, count) =>
      if CompleteAccepted(db, o, count) {
        ShowQueue(db, o, size, count);
      }
    case DoAbortUploads(os) => AbortQueue(db, os);
    case DoDeleteObject(k) => DeleteQueue(db, k);
    case DoReserve(_, _, _, _) =>
    case DoCommit(_, _, _, _, _, _) =>
    case DoBeginUpload(_, _) =>
  }

  lemma FailPartsQueue(db: Db, ps: set<PartId>)
    ensures DeletionsKept(db, FailParts(db, ps))
  {
    var cs := OwnedByParts(db.chunks, ps);
    RetireQueue(OrphanChunks(SetPartsFailed(db, ps), cs), cs);
  }

  lemma AssemblyQueue(db: Db, u: UploadId, o: ObjectId, manifest: seq<PartRef>)
    ensures DeletionsKept(db, CompleteMultipart(db, u, o, manifest))
  {
    if AssemblyCommits(db, u, o, manifest) {
      var ps := CompleteParts(db.parts, u);
      ShowQueue(Assemble(db, u, o), o, DeclaredSize(db.parts, ps), DeclaredChunks(db.parts, ps));
      var shown := Show(Assemble(db, u, o), o, DeclaredSize(db.parts, ps), DeclaredChunks(db.parts, ps));
      RetireQueue(shown, OwnedByParts(shown.chunks, PartsOf(shown.parts, u)));
    }
  }

  lemma MultipartQueue(db: Db, s: MultipartStep)
    ensures DeletionsKept(db, ApplyMultipart(db, s))
  {
    match s
    case DoBeginPart(p, u, number) => FailPartsQueue(db, PriorAttempts(db.parts, u, number));
    case DoCompleteMultipart(u, o, manifest) => AssemblyQueue(db, u, o, manifest);
    case DoAbortMultipart(u) =>
      if u in db.uploads {
        FailPartsQueue(db.(uploads := db.uploads[u := db.uploads[u].(state := Aborted)]), PartsOf(db.parts, u));
      }
    case DoCreateMultipart(_, _) =>
    case DoCompletePart(_, _, _, _) =>
    case DoPurgeUploads(_) =>
  }

  lemma PublicQueues(db: Db, s: Step)
    requires OneJob(db) && Public(s)
    ensures JobsKept(db, Apply(db, s)) && DeletionsKept(db, Apply(db, s))
  {
    match s
    case OnReplicas(r) => ReplicaQueue(db, r);
    case OnUploads(u) => UploadQueue(db, u);
    case OnMultipart(m) => MultipartQueue(db, m);
    case OnRepairs(j) => PublicRepair(db, j);
    case OnGc(DoPurge(cs, os)) => PurgeQueues(db, cs, os);
    case Tick(dt) =>
  }

  lemma StoreLeases(sys: System, s: Step)
    requires LeaseInv(sys) && OneJob(sys.db) && Public(s)
    ensures LeaseInv(ApplyStore(sys, s))
  {
    PublicQueues(sys.db, s);
    KeptLeases(sys, ApplyStore(sys, s));
  }

  lemma KeptLeases(sys: System, next: System)
    requires LeaseInv(sys)
    requires JobsKept(sys.db, next.db) && DeletionsKept(sys.db, next.db)
    requires next.repairs == sys.repairs && next.sweeps == sys.sweeps
    ensures LeaseInv(next)
  {
    assert forall w | Holding(next, w) :: Holding(sys, w);
    assert forall g | Sweeps(next, g) :: Sweeps(sys, g);
  }

  lemma TakeJobLeases(sys: System, w: WorkerId, j: JobId, lease: nat)
    requires LeaseInv(sys) && OneJob(sys.db)
    ensures LeaseInv(DoTakeJob(sys, w, j, lease))
  {
    var next := DoTakeJob(sys, w, j, lease);
    assert forall v | Holding(next, v) && v != w :: Holding(sys, v);
    assert forall g | Sweeps(next, g) :: Sweeps(sys, g);
  }

  /** Letting go of a job, whatever is written to its row, disturbs no other lease. */
  lemma ReleaseLeases(sys: System, w: WorkerId, next: System)
    requires LeaseInv(sys) && Holding(sys, w)
    requires next == sys.(db := next.db, repairs := sys.repairs - {w})
    requires next.db.deletions == sys.db.deletions && next.db.now == sys.db.now && next.db.serial == sys.db.serial
    requires forall j | j in next.db.jobs && j != sys.repairs[w].job ::
      j in sys.db.jobs && next.db.jobs[j] == sys.db.jobs[j]
    ensures LeaseInv(next)
  {
    assert forall v | Holding(next, v) :: Holding(sys, v) && v != w;
    assert forall g | Sweeps(next, g) :: Sweeps(sys, g);
  }

  lemma TakeDeletionLeases(sys: System, g: WorkerId, l: Loc, lease: nat)
    requires LeaseInv(sys)
    ensures LeaseInv(DoTakeDeletion(sys, g, l, lease))
  {
    var next := DoTakeDeletion(sys, g, l, lease);
    assert forall h | Sweeps(next, h) && h != g :: Sweeps(sys, h);
    assert forall w | Holding(next, w) :: Holding(sys, w);
  }

  /** Letting go of a deletion, whatever becomes of its row, disturbs no other lease. */
  lemma ReleaseSweep(sys: System, g: WorkerId, next: System)
    requires LeaseInv(sys) && Sweeps(sys, g)
    requires next == sys.(db := next.db, sweeps := sys.sweeps - {g})
    requires next.db.jobs == sys.db.jobs && next.db.now == sys.db.now && sys.db.serial <= next.db.serial
    requires forall l | l in sys.db.deletions && l != sys.sweeps[g].loc ::
               l in next.db.deletions && next.db.deletions[l] == sys.db.deletions[l]
    ensures LeaseInv(next)
  {
    assert forall h | Sweeps(next, h) :: Sweeps(sys, h) && h != g;
    assert forall w | Holding(next, w) :: Holding(sys, w);
  }

  lemma DropLeases(sys: System, w: WorkerId, g: WorkerId)
    requires LeaseInv(sys)
    ensures LeaseInv(sys.(repairs := sys.repairs - {w})) && LeaseInv(sys.(sweeps := sys.sweeps - {g}))
  {
    assert forall v | Holding(sys.(repairs := sys.repairs - {w}), v) :: Holding(sys, v);
    assert forall v | Holding(sys.(sweeps := sys.sweeps - {g}), v) :: Holding(sys, v);
    assert forall h | Sweeps(sys.(sweeps := sys.sweeps - {g}), h) :: Sweeps(sys, h);
    assert forall h | Sweeps(sys.(repairs := sys.repairs - {w}), h) :: Sweeps(sys, h);
  }

  lemma FinishRepairLeases(sys: System, w: WorkerId, dest: NodeId)
    requires LeaseInv(sys)
    ensures LeaseInv(DoFinishRepair(sys, w, dest))
  {
    if Holding(sys, w) && dest !in sys.repairs[w].occupied {
      ReleaseLeases(sys, w, DoFinishRepair(sys, w, dest));
    }
  }

  lemma DeferRepairLeases(sys: System, w: WorkerId)
    requires LeaseInv(sys)
    ensures LeaseInv(DoDeferRepair(sys, w))
  {
    if Holding(sys, w) {
      ReleaseLeases(sys, w, DoDeferRepair(sys, w));
    }
  }

  lemma FailRepairRow(db: Db, j: JobId, backoff: nat, max: nat)
    ensures var d := FailRepair(db, j, backoff, max);
      && d.serial == db.serial
      && forall i | i in d.jobs && i != j :: i in db.jobs && d.jobs[i] == db.jobs[i]
  {
  }

  lemma GiveUpRepairLeases(sys: System, w: WorkerId, backoff: nat, max: nat)
    requires LeaseInv(sys)
    ensures LeaseInv(DoGiveUpRepair(sys, w, backoff, max))
  {
    if Holding(sys, w) {
      FailRepairRow(sys.db, sys.repairs[w].job, backoff, max);
      ReleaseLeases(sys, w, DoGiveUpRepair(sys, w, backoff, max));
    }
  }

  lemma SweepEventLeases(sys: System, e: Event)
    requires LeaseInv(sys)
    requires e.FinishSweep? || e.FailSweep?
    ensures LeaseInv(React(sys, e))
  {
    var next := React(sys, e);
    if next != sys {
      ReleaseSweep(sys, e.g, next);
    }
  }

  lemma ReactLeases(sys: System, e: Event)
    requires LeaseInv(sys) && OneJob(sys.db)
    ensures LeaseInv(React(sys, e))
  {
    match e
    case Store(s) =>
      if Public(s) {
        StoreLeases(sys, s);
      }
    case TakeJob(w, j, lease) => TakeJobLeases(sys, w, j, lease);
    case TakeDeletion(g, l, lease) => TakeDeletionLeases(sys, g, l, lease);
    case FinishRepair(w, dest) => FinishRepairLeases(sys, w, dest);
    case DeferRepair(w) => DeferRepairLeases(sys, w);
    case GiveUpRepair(w, backoff, max) => GiveUpRepairLeases(sys, w, backoff, max);
    case LoseWorker(w) => DropLeases(sys, w, 0);
    case FinishSweep(_) => SweepEventLeases(sys, e);
    case FailSweep(_, _, _) => SweepEventLeases(sys, e);
    case LoseSweeper(g) => DropLeases(sys, 0, g);
  }

  // ---------------------------------------------------------------------- runs

  /** The store transaction behind an event, if the event reaches the store. */
  ghost function Issued(sys: System, e: Event): Step
    requires e.Store? ==> Public(e.s)
  {
    match e
    case Store(s) => s
    case TakeJob(w, j, lease) => OnRepairs(DoClaim(j, lease))
    case FinishRepair(w, dest) =>
      if Holding(sys, w) then OnRepairs(DoCompleteRepair(sys.repairs[w].job, dest)) else Tick(0)
    case DeferRepair(w) => if Holding(sys, w) then OnRepairs(DoCloseJob(sys.repairs[w].job)) else Tick(0)
    case GiveUpRepair(w, backoff, max) =>
      if Holding(sys, w) then OnRepairs(DoFailRepair(sys.repairs[w].job, backoff, max)) else Tick(0)
    case LoseWorker(_) => Tick(0)
    case TakeDeletion(g, l, lease) => OnGc(DoClaimDeletions({l}, lease))
    case FinishSweep(g) =>
      if Sweeps(sys, g) then OnGc(DoFinishDeletion(sys.sweeps[g].loc, sys.sweeps[g].serial)) else Tick(0)
    case FailSweep(g, backoff, max) =>
      if Sweeps(sys, g) then OnGc(DoFailDeletion(sys.sweeps[g].loc, sys.sweeps[g].serial, backoff, max)) else Tick(0)
    case LoseSweeper(_) => Tick(0)
  }

  lemma SweepIssues(sys: System, e: Event)
    requires e.TakeDeletion? || e.FinishSweep? || e.FailSweep? || e.LoseSweeper?
    ensures React(sys, e).db == sys.db || React(sys, e).db == Apply(sys.db, Issued(sys, e))
  {
  }

  lemma RepairIssues(sys: System, e: Event)
    requires e.FinishRepair? || e.DeferRepair? || e.GiveUpRepair?
    ensures React(sys, e).db == sys.db || React(sys, e).db == Apply(sys.db, Issued(sys, e))
  {
  }

  lemma ClaimIssues(sys: System, e: Event)
    requires e.TakeJob? || e.LoseWorker?
    ensures React(sys, e).db == sys.db || React(sys, e).db == Apply(sys.db, Issued(sys, e))
  {
  }

  /** Workers reach the tables only through store transactions. */
  lemma ReactIssues(sys: System, e: Event)
    requires e.Store? ==> Public(e.s)
    ensures React(sys, e).db == sys.db || React(sys, e).db == Apply(sys.db, Issued(sys, e))
  {
    if e.TakeDeletion? || e.FinishSweep? || e.FailSweep? || e.LoseSweeper? {
      SweepIssues(sys, e);
    } else if e.TakeJob? || e.LoseWorker? {
      ClaimIssues(sys, e);
    } else if !e.Store? {
      RepairIssues(sys, e);
    }
  }

  lemma ReactInv(sys: System, e: Event)
    requires Inv(sys.db)
    ensures Inv(React(sys, e).db)
  {
    if e.Store? && !Public(e.s) {
    } else {
      ReactIssues(sys, e);
      StepInv(sys.db, Issued(sys, e));
    }
  }

  /** Every run from every good state, with any number of workers, keeps tables and leases sound. */
  lemma {:induction false} PlayInv(sys: System, events: seq<Event>)
    requires Inv(sys.db) && LeaseInv(sys)
    ensures Inv(Play(sys, events).db) && LeaseInv(Play(sys, events))
    decreases |events|
  {
    if events != [] {
      var before := Play(sys, events[..|events| - 1]);
      PlayInv(sys, events[..|events| - 1]);
      ReactInv(before, events[|events| - 1]);
      ReactLeases(before, events[|events| - 1]);
    }
  }

  /**
   Lease exclusion: in every reachable state no two workers hold one job or one chunk within
   their leases, nor two sweeps one deletion, and no chunk has two active jobs.
   */
  lemma LeaseExclusion(events: seq<Event>)
    ensures var sys := Play(Boot, events);
      && OneJob(sys.db)
      && (forall v, w | Holding(sys, v) && Holding(sys, w) && sys.repairs[v].job == sys.repairs[w].job :: v == w)
      && (forall v, w | Holding(sys, v) && Holding(sys, w)
            && sys.repairs[v].job in sys.db.jobs && sys.repairs[w].job in sys.db.jobs
            && sys.repairs[v].job.chunk == sys.repairs[w].job.chunk :: v == w)
      && (forall g, h | Sweeps(sys, g) && Sweeps(sys, h) && sys.sweeps[g].loc == sys.sweeps[h].loc :: g == h)
  {
    EmptyInv();
    PlayInv(Boot, events);
  }

  /** A crashed worker's job can be claimed again as soon as its lease has lapsed and is reclaimed. */
  lemma CrashedJobReturns(db: Db, j: JobId, dt: nat)
    requires OneJob(db) && j in db.jobs && db.jobs[j].state == JobRunning
    ensures var later := db.(now := db.now + dt);
      Claimable(ReclaimLeases(later), j) <==> db.jobs[j].lease < db.now + dt
  {
  }
}
