/**
 Fault tolerance: what a committed chunk keeps under any interleaving of node deaths,
 rejoins, verification, repair, trimming and garbage collection.
 */
module Durability {
  import opened Tables
  import opened Transactions
  import opened Invariants
  import opened Workers
  import opened Effects
  import Orders

  /** The nodes a chunk can be read from whatever has died so far. */
  function Survivors(sys: System, c: ChunkId): set<NodeId> {
    AvailableNodes(sys.db.replicas, c) - sys.lost
  }

  /** A worker repairing the chunk knows every node with a row for it, and its job exists. */
  ghost predicate Informed(sys: System, c: ChunkId) {
    forall w | Holding(sys, w) && sys.repairs[w].job.chunk == c ::
      && (c in sys.db.chunks ==> sys.repairs[w].job in sys.db.jobs)
      && RowNodes(sys.db.replicas, c) <= sys.repairs[w].occupied
  }

  ghost predicate Guarded(sys: System, c: ChunkId) {
    Harmless(sys.db.deletions, sys.db.replicas, c) && Informed(sys, c)
  }

  /** At most one of the `m` promised copies is gone per node lost. */
  ghost predicate Durable(sys: System, c: ChunkId, m: nat) {
    Standing(sys.db, c) ==> |Survivors(sys, c)| + |sys.lost| >= m
  }

  ghost predicate Safe(sys: System, c: ChunkId, m: nat) {
    Guarded(sys, c) && Durable(sys, c, m)
  }

  // ------------------------------------------------------------------- calm runs

  /** No repair in progress on the chunk and no deletion queued for it on these nodes. */
  ghost predicate Unclaimed(sys: System, c: ChunkId, ns: set<NodeId>) {
    && (forall w | w in sys.repairs :: sys.repairs[w].job.chunk != c)
    && (forall n: NodeId | n in ns :: Loc(c, n) !in sys.db.deletions)
  }

  /**
   Nothing reports the chunk corrupt or drops one of its replicas. Writers give it a fresh id, record targets
   only while it is PENDING, commit with at least `m` copies, use no node where a deletion of it waits and do not
   race its repair; trimming keeps at least `m` copies.
   */
  ghost predicate CalmStep(sys: System, s: Step, c: ChunkId, m: nat) {
    match s
    case OnReplicas(DoMarkCorrupt(l)) => l.chunk != c
    case OnReplicas(DoDropReplica(l)) => l.chunk != c
    case OnReplicas(DoRecordTargets(k, ns)) =>
      k == c ==> Unclaimed(sys, c, ns) && (c in sys.db.chunks ==> sys.db.chunks[c].state == Pending)
    case OnReplicas(DoTrim(k, rf)) => k == c ==> rf >= m
    case OnUploads(DoReserve(id, _, _, _)) =>
      id == c && c !in sys.db.chunks ==> forall w | w in sys.repairs :: sys.repairs[w].job.chunk != c
    case OnUploads(DoCommit(k, _, _, ok, bad, min)) => k == c ==> Unclaimed(sys, c, ok + bad) && min >= m
    case _ => true
  }

  /** The worker's copy of the chunk would land where a deletion of it waits. */
  ghost predicate LandsOnJob(sys: System, e: Event, c: ChunkId) {
    && e.FinishRepair? && Holding(sys, e.w) && sys.repairs[e.w].job.chunk == c
    && e.dest !in sys.repairs[e.w].occupied && Loc(c, e.dest) in sys.db.deletions
  }

  ghost predicate Calm(sys: System, e: Event, c: ChunkId, m: nat) {
    (e.Store? ==> CalmStep(sys, e.s, c, m)) && !LandsOnJob(sys, e, c)
  }

  ghost predicate CalmRun(sys: System, events: seq<Event>, c: ChunkId, m: nat)
    decreases |events|
  {
    events != [] ==>
      && CalmRun(sys, events[..|events| - 1], c, m)
      && Calm(Play(sys, events[..|events| - 1]), events[|events| - 1], c, m)
  }

  // ------------------------------------------------------------------ the system

  /** Losing `dead` costs at most one survivor per node newly lost. */
  lemma SurvivorCount(before: set<NodeId>, after: set<NodeId>, lost: set<NodeId>, dead: set<NodeId>, m: nat)
    requires before - dead <= after && |before - lost| + |lost| >= m
    ensures |after - (lost + dead)| + |lost + dead| >= m
  {
    var gone := dead - lost;
    assert lost + dead == lost + gone;
    Orders.SubsetSize(before - lost, (after - (lost + dead)) + gone);
  }

  /** Only a reservation creates a chunk, and only under the id it was given. */
  lemma Minting(db: Db, s: Step, c: ChunkId)
    requires Public(s) && c !in db.chunks && c in Apply(db, s).chunks
    ensures s.OnUploads? && s.u.DoReserve? && s.u.id == c
  {
    match s
    case OnUploads(u) => UploadChunksRemain(db, u);
    case OnMultipart(m) => MultipartChunksRemain(db, m);
    case _ =>
  }

  lemma GentleInformed(sys: System, s: Step, c: ChunkId, m: nat)
    requires Inv(sys.db) && LeaseInv(sys) && Informed(sys, c) && Public(s) && CalmStep(sys, s, c, m)
    requires RowNodes(Apply(sys.db, s).replicas, c) <= RowNodes(sys.db.replicas, c)
    ensures Informed(ApplyStore(sys, s), c)
  {
    var next := ApplyStore(sys, s);
    PublicQueues(sys.db, s);
    forall w | Holding(next, w) && next.repairs[w].job.chunk == c
      ensures (c in next.db.chunks ==> next.repairs[w].job in next.db.jobs)
      ensures RowNodes(next.db.replicas, c) <= next.repairs[w].occupied
    {
      assert Holding(sys, w);
      if c in next.db.chunks && c !in sys.db.chunks {
        Minting(sys.db, s, c);
        assert false;
      }
    }
  }

  /** What a gentle step does to the count of surviving copies. */
  lemma GentleDurable(sys: System, d: Db, c: ChunkId, m: nat, dead: set<NodeId>)
    requires Durable(sys, c, m) && Gentle(sys.db, d, c, m, dead) && Standing(d, c)
    ensures |AvailableNodes(d.replicas, c) - (sys.lost + dead)| + |sys.lost + dead| >= m
  {
    var before, after := AvailableNodes(sys.db.replicas, c), AvailableNodes(d.replicas, c);
    if |after| >= m {
      EnoughLeft(after, sys.lost + dead, m);
    } else {
      SurvivorCount(before, after, sys.lost, dead, m);
    }
  }

  lemma EnoughLeft(here: set<NodeId>, lost: set<NodeId>, m: nat)
    requires |here| >= m
    ensures |here - lost| + |lost| >= m
  {
    Orders.SubsetSize(here, (here - lost) + lost);
  }

  lemma GentleSafe(sys: System, next: System, c: ChunkId, m: nat, dead: set<NodeId>)
    requires Safe(sys, c, m) && Informed(next, c) && Gentle(sys.db, next.db, c, m, dead) && next.lost == sys.lost + dead
    ensures Safe(next, c, m)
  {
    if Standing(next.db, c) {
      GentleDurable(sys, next.db, c, m, dead);
    }
  }

  lemma TargetsSafe(sys: System, c: ChunkId, ns: set<NodeId>, m: nat)
    requires Safe(sys, c, m) && CalmStep(sys, OnReplicas(DoRecordTargets(c, ns)), c, m)
    ensures Safe(ApplyStore(sys, OnReplicas(DoRecordTargets(c, ns))), c, m)
  {
  }

  lemma CommitAims(db: Db, c: ChunkId, ok: set<NodeId>, bad: set<NodeId>)
    requires Harmless(db.deletions, db.replicas, c)
    requires forall n: NodeId | n in ok + bad :: Loc(c, n) !in db.deletions
    ensures var d := CommitRows(db, c, ok, bad); Harmless(d.deletions, d.replicas, c)
  {
  }

  lemma FullSafe(next: System, c: ChunkId, m: nat)
    requires Harmless(next.db.deletions, next.db.replicas, c)
    requires forall w | w in next.repairs :: next.repairs[w].job.chunk != c
    requires |AvailableNodes(next.db.replicas, c)| >= m
    ensures Safe(next, c, m)
  {
    EnoughLeft(AvailableNodes(next.db.replicas, c), next.lost, m);
  }

  lemma CommitSafe(sys: System, c: ChunkId, sum: string, size: nat, ok: set<NodeId>, bad: set<NodeId>, min: nat, m: nat)
    requires Safe(sys, c, m) && Unclaimed(sys, c, ok + bad) && min >= m
    ensures var d := CommitChunk(sys.db, c, sum, size, ok, bad, min);
      && Safe(sys.(db := d), c, m)
      && (if CommitAccepted(sys.db, c, sum, ok, bad, min) then |AvailableNodes(d.replicas, c)| >= min else d == sys.db)
  {
    if CommitAccepted(sys.db, c, sum, ok, bad, min) {
      CommitAims(sys.db, c, ok, bad);
      FullSafe(sys.(db := CommitChunk(sys.db, c, sum, size, ok, bad, min)), c, m);
    }
  }

  /** A stray file's job has no replica to harm. */
  lemma StraySafe(sys: System, l: Loc, c: ChunkId, m: nat)
    requires Safe(sys, c, m)
    ensures Safe(ApplyStore(sys, OnReplicas(DoQueueOrphan(l))), c, m)
  {
    QueuedHarmless(sys.db, l, c);
    JobsOnlySafe(sys, ApplyStore(sys, OnReplicas(DoQueueOrphan(l))), c, m);
  }

  lemma QueuedHarmless(db: Db, l: Loc, c: ChunkId)
    requires Harmless(db.deletions, db.replicas, c)
    ensures Harmless(QueueOrphan(db, l).deletions, QueueOrphan(db, l).replicas, c)
    ensures QueueOrphan(db, l) == db.(deletions := QueueOrphan(db, l).deletions, serial := QueueOrphan(db, l).serial)
  {
  }

  lemma JobsOnlySafe(sys: System, next: System, c: ChunkId, m: nat)
    requires Safe(sys, c, m) && Harmless(next.db.deletions, next.db.replicas, c)
    requires next == sys.(db := sys.db.(deletions := next.db.deletions, serial := next.db.serial))
    ensures Safe(next, c, m)
  {
    assert forall w | Holding(next, w) :: Holding(sys, w);
  }

  lemma StoreSafe(sys: System, s: Step, c: ChunkId, m: nat)
    requires Inv(sys.db) && LeaseInv(sys) && Safe(sys, c, m) && Public(s) && CalmStep(sys, s, c, m)
    ensures Safe(ApplyStore(sys, s), c, m)
  {
    if s.OnReplicas? && s.r.DoRecordTargets? && s.r.c == c {
      TargetsSafe(sys, c, s.r.ns, m);
    } else if s.OnUploads? && s.u.DoCommit? && s.u.c == c {
      CommitSafe(sys, c, s.u.sum, s.u.size, s.u.ok, s.u.bad, s.u.min, m);
      assert ApplyStore(sys, s) == sys.(db := Apply(sys.db, s));
    } else if s.OnReplicas? && s.r.DoQueueOrphan? && s.r.l.chunk == c {
      StraySafe(sys, s.r.l, c, m);
    } else {
      PublicGentle(sys.db, s, c, m);
      GentleInformed(sys, s, c, m);
      GentleSafe(sys, ApplyStore(sys, s), c, m, DeclaredDead(s));
    }
  }

  /** A worker's own database access that leaves the chunk's rows and every job in place. */
  lemma QuietSafe(sys: System, next: System, c: ChunkId, m: nat)
    requires Safe(sys, c, m)
    requires next.db == sys.db.(jobs := next.db.jobs, deletions := next.db.deletions)
    requires next.db.deletions.Keys == sys.db.deletions.Keys && sys.db.jobs.Keys <= next.db.jobs.Keys
    requires next.lost == sys.lost
    requires forall w | Holding(next, w) && next.repairs[w].job.chunk == c ::
      Holding(sys, w) && next.repairs[w] == sys.repairs[w]
    ensures Safe(next, c, m)
  {
  }

  lemma TakeJobSafe(sys: System, w: WorkerId, j: JobId, lease: nat, c: ChunkId, m: nat)
    requires Safe(sys, c, m)
    ensures Safe(DoTakeJob(sys, w, j, lease), c, m)
  {
    var next := DoTakeJob(sys, w, j, lease);
    assert forall v | Holding(next, v) && v != w :: Holding(sys, v);
  }

  lemma TakeDeletionSafe(sys: System, g: WorkerId, l: Loc, lease: nat, c: ChunkId, m: nat)
    requires Safe(sys, c, m)
    ensures Safe(DoTakeDeletion(sys, g, l, lease), c, m)
  {
    QuietSafe(sys, DoTakeDeletion(sys, g, l, lease), c, m);
  }

  lemma DeferSafe(sys: System, w: WorkerId, c: ChunkId, m: nat)
    requires Safe(sys, c, m)
    ensures Safe(DoDeferRepair(sys, w), c, m)
  {
    QuietSafe(sys, DoDeferRepair(sys, w), c, m);
  }

  lemma GiveUpSafe(sys: System, w: WorkerId, backoff: nat, max: nat, c: ChunkId, m: nat)
    requires Safe(sys, c, m)
    ensures Safe(DoGiveUpRepair(sys, w, backoff, max), c, m)
  {
    QuietSafe(sys, DoGiveUpRepair(sys, w, backoff, max), c, m);
  }

  /** No second worker is repairing the chunk of an in-lease holder. */
  lemma SoleRepairer(sys: System, c: ChunkId, v: WorkerId, w: WorkerId)
    requires OneJob(sys.db) && LeaseInv(sys) && Informed(sys, c) && c in sys.db.chunks
    requires Holding(sys, v) && Holding(sys, w) && sys.repairs[v].job.chunk == sys.repairs[w].job.chunk == c
    ensures v == w
  {
  }

  lemma NobodyElse(sys: System, c: ChunkId, w: WorkerId, dest: NodeId)
    requires OneJob(sys.db) && LeaseInv(sys) && Informed(sys, c) && c in sys.db.chunks
    requires Holding(sys, w) && sys.repairs[w].job.chunk == c && dest !in sys.repairs[w].occupied
    ensures var next := DoFinishRepair(sys, w, dest);
      forall v | Holding(next, v) :: next.repairs[v].job.chunk != c
  {
    var next := DoFinishRepair(sys, w, dest);
    forall v | Holding(next, v) ensures next.repairs[v].job.chunk != c {
      assert Holding(sys, v) && v != w;
      if sys.repairs[v].job.chunk == c {
        SoleRepairer(sys, c, v, w);
      }
    }
  }

  /** A finished repair adds one AVAILABLE replica on a node that had no row for the chunk. */
  lemma RepairAdds(db: Db, j: JobId, dest: NodeId)
    requires j.chunk in db.chunks && dest in db.nodes && dest !in RowNodes(db.replicas, j.chunk)
    ensures var d := CompleteRepair(db, j, dest);
      && AvailableNodes(d.replicas, j.chunk) == AvailableNodes(db.replicas, j.chunk) + {dest}
      && RowNodes(d.replicas, j.chunk) == RowNodes(db.replicas, j.chunk) + {dest}
      && (Aimed(db.deletions, db.replicas, j.chunk) ==> Aimed(d.deletions, d.replicas, j.chunk))
      && (Harmless(db.deletions, db.replicas, j.chunk) && Loc(j.chunk, dest) !in db.deletions ==>
            Harmless(d.deletions, d.replicas, j.chunk))
      && d.chunks == db.chunks && (Standing(d, j.chunk) <==> Standing(db, j.chunk))
      && (j in db.jobs ==> j in d.jobs && d.jobs[j].state == JobSucceeded)
  {
    SetRow(db, Loc(j.chunk, dest), Available);
  }

  lemma RepairSafe(sys: System, w: WorkerId, dest: NodeId, c: ChunkId, m: nat)
    requires Inv(sys.db) && LeaseInv(sys) && Safe(sys, c, m)
    requires Holding(sys, w) && dest !in sys.repairs[w].occupied && sys.repairs[w].job.chunk == c
    requires c in sys.db.chunks && dest in sys.db.nodes && Loc(c, dest) !in sys.db.deletions
    ensures Safe(DoFinishRepair(sys, w, dest), c, m)
  {
    RepairAdds(sys.db, sys.repairs[w].job, dest);
    NobodyElse(sys, c, w, dest);
    AddedSafe(sys, DoFinishRepair(sys, w, dest), c, m);
  }

  lemma AddedSafe(sys: System, next: System, c: ChunkId, m: nat)
    requires Durable(sys, c, m) && next.lost == sys.lost
    requires Harmless(next.db.deletions, next.db.replicas, c)
    requires forall v | Holding(next, v) :: next.repairs[v].job.chunk != c
    requires Standing(next.db, c) ==> Standing(sys.db, c)
    requires AvailableNodes(sys.db.replicas, c) <= AvailableNodes(next.db.replicas, c)
    ensures Safe(next, c, m)
  {
    Orders.SubsetSize(Survivors(sys, c), Survivors(next, c));
  }

  lemma RepairElsewhere(db: Db, j: JobId, dest: NodeId, c: ChunkId)
    requires j.chunk != c || j.chunk !in db.chunks || dest !in db.nodes
    ensures var d := CompleteRepair(db, j, dest);
      && AvailableNodes(d.replicas, c) == AvailableNodes(db.replicas, c)
      && RowNodes(d.replicas, c) == RowNodes(db.replicas, c)
      && (Harmless(db.deletions, db.replicas, c) ==> Harmless(d.deletions, d.replicas, c))
      && d.chunks == db.chunks && db.jobs.Keys <= d.jobs.Keys && (Standing(d, c) ==> Standing(db, c))
  {
    SetRow(db, Loc(j.chunk, dest), Available);
  }

  lemma RepairElsewhereSafe(sys: System, w: WorkerId, dest: NodeId, c: ChunkId, m: nat)
    requires Safe(sys, c, m) && Holding(sys, w) && dest !in sys.repairs[w].occupied
    requires sys.repairs[w].job.chunk != c || sys.repairs[w].job.chunk !in sys.db.chunks || dest !in sys.db.nodes
    ensures Safe(DoFinishRepair(sys, w, dest), c, m)
  {
    var next := DoFinishRepair(sys, w, dest);
    RepairElsewhere(sys.db, sys.repairs[w].job, dest, c);
    assert forall v | Holding(next, v) :: Holding(sys, v);
  }

  lemma FinishRepairSafe(sys: System, w: WorkerId, dest: NodeId, c: ChunkId, m: nat)
    requires Inv(sys.db) && LeaseInv(sys) && Safe(sys, c, m) && !LandsOnJob(sys, FinishRepair(w, dest), c)
    ensures Safe(DoFinishRepair(sys, w, dest), c, m)
  {
    if Holding(sys, w) && dest !in sys.repairs[w].occupied {
      if sys.repairs[w].job.chunk == c && c in sys.db.chunks && dest in sys.db.nodes {
        RepairSafe(sys, w, dest, c, m);
      } else {
        RepairElsewhereSafe(sys, w, dest, c, m);
      }
    }
  }

  /** Removing a row together with its job, where the job was aimed, costs no AVAILABLE replica. */
  lemma FinishGentle(db: Db, l: Loc, serial: nat, c: ChunkId)
    requires l in db.deletions && db.deletions[l].serial == serial && Harmless(db.deletions, db.replicas, c)
    ensures var d := FinishDeletion(db, l, serial);
      && Harmless(d.deletions, d.replicas, c) && RowNodes(d.replicas, c) <= RowNodes(db.replicas, c)
      && AvailableNodes(d.replicas, c) == AvailableNodes(db.replicas, c)
  {
    FinishRows(db, l, serial);
  }

  lemma ExpireGentle(db: Db, l: Loc, serial: nat, c: ChunkId)
    requires l in db.deletions && db.deletions[l].serial == serial && Harmless(db.deletions, db.replicas, c)
    ensures var d := ExpireDeletion(db, l, serial);
      && Harmless(d.deletions, d.replicas, c) && RowNodes(d.replicas, c) <= RowNodes(db.replicas, c)
      && AvailableNodes(d.replicas, c) == AvailableNodes(db.replicas, c)
  {
    ExpireRows(db, l, serial);
  }

  lemma FailGentle(db: Db, l: Loc, serial: nat, backoff: nat, max: nat, c: ChunkId)
    requires l in db.deletions && db.deletions[l].serial == serial && Harmless(db.deletions, db.replicas, c)
    ensures var d := FailDeletion(db, l, serial, backoff, max);
      && Harmless(d.deletions, d.replicas, c) && RowNodes(d.replicas, c) <= RowNodes(db.replicas, c)
      && AvailableNodes(d.replicas, c) == AvailableNodes(db.replicas, c)
  {
    if db.deletions[l].attempts >= max {
      ExpireGentle(db, l, serial, c);
    }
  }

  lemma SweepSafe(sys: System, g: WorkerId, next: System, c: ChunkId, m: nat)
    requires Safe(sys, c, m)
    requires next == sys.(db := next.db, sweeps := next.sweeps) && OnlyReplicas(sys.db, next.db)
    requires Harmless(next.db.deletions, next.db.replicas, c)
    requires RowNodes(next.db.replicas, c) <= RowNodes(sys.db.replicas, c)
    requires AvailableNodes(next.db.replicas, c) == AvailableNodes(sys.db.replicas, c)
    ensures Safe(next, c, m)
  {
    assert forall w | Holding(next, w) :: Holding(sys, w);
  }

  lemma SweepEventSafe(sys: System, e: Event, c: ChunkId, m: nat)
    requires LeaseInv(sys) && Safe(sys, c, m)
    requires e.FinishSweep? || e.FailSweep?
    ensures Safe(React(sys, e), c, m)
  {
    if Sweeps(sys, e.g) {
      var s := sys.sweeps[e.g];
      if e.FinishSweep? {
        FinishGentle(sys.db, s.loc, s.serial, c);
      } else {
        FailGentle(sys.db, s.loc, s.serial, e.backoff, e.max, c);
      }
      SweepSafe(sys, e.g, React(sys, e), c, m);
    }
  }

  /** One event of any kind keeps a chunk safe. */
  lemma ReactSafe(sys: System, e: Event, c: ChunkId, m: nat)
    requires Inv(sys.db) && LeaseInv(sys) && Safe(sys, c, m) && Calm(sys, e, c, m)
    ensures Safe(React(sys, e), c, m)
  {
    match e
    case Store(s) =>
      if Public(s) {
        StoreSafe(sys, s, c, m);
      }
    case TakeJob(w, j, lease) => TakeJobSafe(sys, w, j, lease, c, m);
    case FinishRepair(w, dest) => FinishRepairSafe(sys, w, dest, c, m);
    case DeferRepair(w) => DeferSafe(sys, w, c, m);
    case GiveUpRepair(w, backoff, max) => GiveUpSafe(sys, w, backoff, max, c, m);
    case LoseWorker(w) => QuietSafe(sys, React(sys, e), c, m);
    case TakeDeletion(g, l, lease) => TakeDeletionSafe(sys, g, l, lease, c, m);
    case FinishSweep(_) => SweepEventSafe(sys, e, c, m);
    case FailSweep(_, _, _) => SweepEventSafe(sys, e, c, m);
    case LoseSweeper(_) => QuietSafe(sys, React(sys, e), c, m);
  }

  lemma {:induction false} PlaySafe(sys: System, events: seq<Event>, c: ChunkId, m: nat)
    requires Inv(sys.db) && LeaseInv(sys) && Safe(sys, c, m) && CalmRun(sys, events, c, m)
    ensures Safe(Play(sys, events), c, m)
    decreases |events|
  {
    if events != [] {
      var past, last := events[..|events| - 1], events[|events| - 1];
      PlayInv(sys, past);
      PlaySafe(sys, past, c, m);
      ReactSafe(Play(sys, past), last, c, m);
    }
  }

  // ------------------------------------------------------------------ main results

  /** Every node the tables call DEAD has been declared lost. */
  ghost predicate LostCovers(sys: System) {
    forall n | n in sys.db.nodes && sys.db.nodes[n].health == Dead :: n in sys.lost
  }

  lemma NodesStay(db: Db, s: ReplicaStep)
    requires !s.DoRecordNode? && !s.DoSetNodeHealth?
    ensures ApplyReplica(db, s).nodes == db.nodes
  {
  }

  lemma ReplicaNodes(db: Db, s: ReplicaStep)
    ensures forall n | n in ApplyReplica(db, s).nodes && ApplyReplica(db, s).nodes[n].health == Dead ::
              n in DeclaredDead(OnReplicas(s)) || (n in db.nodes && db.nodes[n].health == Dead)
  {
    match s
    case DoRecordNode(n, row) =>
    case DoSetNodeHealth(n, h) => assert SetNodeHealth(db, n, h).nodes == NoteHealth(db, n, h).nodes;
    case _ => NodesStay(db, s);
  }

  lemma PublicNodes(db: Db, s: Step)
    requires Public(s)
    ensures forall n | n in Apply(db, s).nodes && Apply(db, s).nodes[n].health == Dead ::
              n in DeclaredDead(s) || (n in db.nodes && db.nodes[n].health == Dead)
  {
    match s
    case OnReplicas(r) => ReplicaNodes(db, r);
    case _ => assert Apply(db, s).nodes == db.nodes;
  }

  lemma ReactCovers(sys: System, e: Event)
    requires LostCovers(sys)
    ensures LostCovers(React(sys, e))
  {
    if e.Store? {
      if Public(e.s) {
        PublicNodes(sys.db, e.s);
      }
    } else {
      WorkerNodes(sys, e);
    }
  }

  lemma WorkerNodes(sys: System, e: Event)
    requires !e.Store?
    ensures React(sys, e).db.nodes == sys.db.nodes && React(sys, e).lost == sys.lost
  {
  }

  lemma {:induction false} PlayCovers(sys: System, events: seq<Event>)
    requires LostCovers(sys)
    ensures LostCovers(Play(sys, events))
    decreases |events|
  {
    if events != [] {
      PlayCovers(sys, events[..|events| - 1]);
      ReactCovers(Play(sys, events[..|events| - 1]), events[|events| - 1]);
    }
  }

  /**
   Fault tolerance, chunk by chunk: over every calm run from a fresh system, a chunk committed with
   at least `m` copies has at least `m - |lost|` AVAILABLE replicas on nodes never declared DEAD.
   */
  lemma SurvivingCopies(events: seq<Event>, c: ChunkId, m: nat)
    requires CalmRun(Boot, events, c, m) && Standing(Play(Boot, events).db, c)
    ensures |Survivors(Play(Boot, events), c)| >= m - |Play(Boot, events).lost|
  {
    EmptyInv();
    PlaySafe(Boot, events, c, m);
  }

  /**
   Fault tolerance of visible objects: if fewer than `m` nodes were ever declared DEAD, every
   chunk of every COMPLETE object can still be read from a node that never died.
   */
  lemma FaultTolerance(events: seq<Event>, o: ObjectId, m: nat)
    requires var db := Play(Boot, events).db; o in db.objects && db.objects[o].state == Complete
    requires forall c | c in Owned(Play(Boot, events).db.chunks, ObjectOwner(o)) :: CalmRun(Boot, events, c, m)
    requires |Play(Boot, events).lost| < m
    ensures var sys := Play(Boot, events);
      && AllCommitted(sys.db.chunks, ObjectOwner(o), sys.db.objects[o].chunkCount)
      && forall c | c in Owned(sys.db.chunks, ObjectOwner(o)) ::
           exists n :: n !in sys.lost && Readable(sys.db, Loc(c, n))
  {
    var sys := Play(Boot, events);
    EmptyInv();
    PlayInv(Boot, events);
    PlayCovers(Boot, events);
    CompleteSettled(sys.db, o);
    forall c | c in Owned(sys.db.chunks, ObjectOwner(o))
      ensures exists n :: n !in sys.lost && Readable(sys.db, Loc(c, n))
    {
      SurvivingCopies(events, c, m);
      SurvivorReadable(sys, c);
    }
  }

  lemma CompleteSettled(db: Db, o: ObjectId)
    requires Inv(db) && o in db.objects && db.objects[o].state == Complete
    ensures AllCommitted(db.chunks, ObjectOwner(o), db.objects[o].chunkCount)
    ensures forall c | c in Owned(db.chunks, ObjectOwner(o)) :: Standing(db, c)
  {
    assert Settled(db, ObjectOwner(o));
  }

  lemma SurvivorReadable(sys: System, c: ChunkId)
    requires LostCovers(sys) && ReplicaRefs(sys.db) && |Survivors(sys, c)| > 0
    ensures exists n :: n !in sys.lost && Readable(sys.db, Loc(c, n))
  {
    var n :| n in Survivors(sys, c);
    assert Readable(sys.db, Loc(c, n));
  }

  lemma NothingLost(sys: System, c: ChunkId)
    ensures sys.lost == {} ==> Survivors(sys, c) == AvailableNodes(sys.db.replicas, c)
  {
  }

  // -------------------------------------------------------- without stray files

  /** Every deletion job of the chunk has a replica row. */
  ghost predicate Rowed(deletions: Deletions, replicas: Replicas, c: ChunkId) {
    forall n: NodeId :: Loc(c, n) in deletions ==> Loc(c, n) in replicas
  }

  lemma AimedParts(deletions: Deletions, replicas: Replicas, c: ChunkId)
    ensures Aimed(deletions, replicas, c) <==> Harmless(deletions, replicas, c) && Rowed(deletions, replicas, c)
  {
  }

  /** Calm where no stray file of the chunk is reported: then no copy can land on a waiting deletion. */
  ghost predicate Strict(sys: System, e: Event, c: ChunkId, m: nat) {
    e.Store? ==> CalmStep(sys, e.s, c, m) && !(e.s.OnReplicas? && e.s.r.DoQueueOrphan? && e.s.r.l.chunk == c)
  }

  ghost predicate StrictRun(sys: System, events: seq<Event>, c: ChunkId, m: nat)
    decreases |events|
  {
    events != [] ==>
      && StrictRun(sys, events[..|events| - 1], c, m)
      && Strict(Play(sys, events[..|events| - 1]), events[|events| - 1], c, m)
  }

  lemma StrictIsCalm(sys: System, e: Event, c: ChunkId, m: nat)
    requires Strict(sys, e, c, m) && Informed(sys, c) && Rowed(sys.db.deletions, sys.db.replicas, c)
    ensures Calm(sys, e, c, m)
  {
  }

  lemma StoreRowed(sys: System, s: Step, c: ChunkId, m: nat)
    requires Inv(sys.db) && Rowed(sys.db.deletions, sys.db.replicas, c) && Public(s) && Strict(sys, Store(s), c, m)
    ensures Rowed(Apply(sys.db, s).deletions, Apply(sys.db, s).replicas, c)
  {
    if s.OnReplicas? && s.r.DoRecordTargets? && s.r.c == c {
    } else if s.OnUploads? && s.u.DoCommit? && s.u.c == c {
      CommitRowed(sys.db, c, s.u.sum, s.u.size, s.u.ok, s.u.bad, s.u.min);
    } else {
      PublicGentle(sys.db, s, c, m);
      SteeredRowed(sys.db, Apply(sys.db, s), c);
    }
  }

  lemma SteeredRowed(db: Db, d: Db, c: ChunkId)
    requires Steered(db, d, c) && Rowed(db.deletions, db.replicas, c)
    ensures Rowed(d.deletions, d.replicas, c)
  {
    forall n: NodeId | Loc(c, n) in d.deletions ensures Loc(c, n) in d.replicas {
      assert n in RowNodes(d.replicas, c) <==> n in RowNodes(db.replicas, c);
    }
  }

  lemma CommitRowed(db: Db, c: ChunkId, sum: string, size: nat, ok: set<NodeId>, bad: set<NodeId>, min: nat)
    requires Rowed(db.deletions, db.replicas, c)
    ensures var d := CommitChunk(db, c, sum, size, ok, bad, min); Rowed(d.deletions, d.replicas, c)
  {
  }

  lemma FinishRowed(db: Db, l: Loc, serial: nat, c: ChunkId)
    requires Rowed(db.deletions, db.replicas, c) && l in db.deletions && db.deletions[l].serial == serial
    ensures var d := FinishDeletion(db, l, serial); Rowed(d.deletions, d.replicas, c)
  {
    FinishRows(db, l, serial);
  }

  lemma ExpireRowed(db: Db, l: Loc, serial: nat, c: ChunkId)
    requires Rowed(db.deletions, db.replicas, c) && l in db.deletions && db.deletions[l].serial == serial
    ensures var d := ExpireDeletion(db, l, serial); Rowed(d.deletions, d.replicas, c)
  {
    ExpireRows(db, l, serial);
  }

  lemma FailRowed(db: Db, l: Loc, serial: nat, backoff: nat, max: nat, c: ChunkId)
    requires Rowed(db.deletions, db.replicas, c) && l in db.deletions && db.deletions[l].serial == serial
    ensures var d := FailDeletion(db, l, serial, backoff, max); Rowed(d.deletions, d.replicas, c)
  {
    ExpireRowed(db, l, serial, c);
  }

  lemma SweepRowed(sys: System, e: Event, c: ChunkId)
    requires LeaseInv(sys) && Rowed(sys.db.deletions, sys.db.replicas, c) && (e.FinishSweep? || e.FailSweep?)
    ensures Rowed(React(sys, e).db.deletions, React(sys, e).db.replicas, c)
  {
    if Sweeps(sys, e.g) {
      var s := sys.sweeps[e.g];
      if e.FinishSweep? {
        FinishRowed(sys.db, s.loc, s.serial, c);
      } else {
        FailRowed(sys.db, s.loc, s.serial, e.backoff, e.max, c);
      }
    }
  }

  lemma RepairRowed(sys: System, e: Event, c: ChunkId)
    requires Rowed(sys.db.deletions, sys.db.replicas, c)
    requires e.TakeJob? || e.FinishRepair? || e.DeferRepair? || e.GiveUpRepair? || e.LoseWorker?
    ensures Rowed(React(sys, e).db.deletions, React(sys, e).db.replicas, c)
  {
    if e.FinishRepair? && Holding(sys, e.w) {
      SetRow(sys.db, Loc(sys.repairs[e.w].job.chunk, e.dest), Available);
    }
  }

  lemma ReactRowed(sys: System, e: Event, c: ChunkId, m: nat)
    requires Inv(sys.db) && LeaseInv(sys) && Rowed(sys.db.deletions, sys.db.replicas, c) && Strict(sys, e, c, m)
    ensures Rowed(React(sys, e).db.deletions, React(sys, e).db.replicas, c)
  {
    match e
    case Store(s) =>
      if Public(s) {
        StoreRowed(sys, s, c, m);
      }
    case TakeDeletion(g, l, lease) =>
    case FinishSweep(_) => SweepRowed(sys, e, c);
    case FailSweep(_, _, _) => SweepRowed(sys, e, c);
    case LoseSweeper(_) =>
    case _ => RepairRowed(sys, e, c);
  }

  lemma {:induction false} StrictRunIsCalm(sys: System, events: seq<Event>, c: ChunkId, m: nat)
    requires Inv(sys.db) && LeaseInv(sys) && Safe(sys, c, m) && Rowed(sys.db.deletions, sys.db.replicas, c)
    requires StrictRun(sys, events, c, m)
    ensures CalmRun(sys, events, c, m) && Safe(Play(sys, events), c, m)
    ensures Rowed(Play(sys, events).db.deletions, Play(sys, events).db.replicas, c)
    decreases |events|
  {
    if events != [] {
      var past, last := events[..|events| - 1], events[|events| - 1];
      PlayInv(sys, past);
      StrictRunIsCalm(sys, past, c, m);
      StrictIsCalm(Play(sys, past), last, c, m);
      ReactRowed(Play(sys, past), last, c, m);
      ReactSafe(Play(sys, past), last, c, m);
    }
  }

  /**
   Self-healing never hurts: from any state where every deletion job of the chunk targets a
   DELETING replica, any calm run keeps that and leaves at least min(rf, starting count) AVAILABLE
   replicas, less at most one per node declared DEAD on the way.
   */
  lemma NeverHurts(sys: System, events: seq<Event>, c: ChunkId, rf: nat)
    requires Inv(sys.db) && LeaseInv(sys) && Informed(sys, c) && sys.lost == {}
    requires Aimed(sys.db.deletions, sys.db.replicas, c)
    requires StrictRun(sys, events, c, Orders.Min(rf, |AvailableNodes(sys.db.replicas, c)|))
    ensures var end := Play(sys, events);
      && Aimed(end.db.deletions, end.db.replicas, c)
      && (Standing(end.db, c) ==>
            |Survivors(end, c)| + |end.lost| >= Orders.Min(rf, |AvailableNodes(sys.db.replicas, c)|))
      && (Standing(end.db, c) && end.lost == {} ==>
            |AvailableNodes(end.db.replicas, c)| >= Orders.Min(rf, |AvailableNodes(sys.db.replicas, c)|))
  {
    var m, end := Orders.Min(rf, |AvailableNodes(sys.db.replicas, c)|), Play(sys, events);
    NothingLost(sys, c);
    AimedParts(sys.db.deletions, sys.db.replicas, c);
    StrictRunIsCalm(sys, events, c, m);
    NothingLost(end, c);
    AimedParts(end.db.deletions, end.db.replicas, c);
  }

  /** With stray files about, the same holds as long as no copy lands where a deletion waits. */
  lemma NeverHurtsAmongStrays(sys: System, events: seq<Event>, c: ChunkId, rf: nat)
    requires Inv(sys.db) && LeaseInv(sys) && Guarded(sys, c) && sys.lost == {}
    requires CalmRun(sys, events, c, Orders.Min(rf, |AvailableNodes(sys.db.replicas, c)|))
    ensures var end := Play(sys, events);
      && Harmless(end.db.deletions, end.db.replicas, c)
      && (Standing(end.db, c) ==>
            |Survivors(end, c)| + |end.lost| >= Orders.Min(rf, |AvailableNodes(sys.db.replicas, c)|))
  {
    NothingLost(sys, c);
    PlaySafe(sys, events, c, Orders.Min(rf, |AvailableNodes(sys.db.replicas, c)|));
  }

  /**
   The exact danger: a delivery leaves every deletion job of the chunk harmless if and only if no job waits at
   its destination.
   */
  lemma DeliveryAimedIff(sys: System, w: WorkerId, dest: NodeId)
    requires Holding(sys, w) && dest !in sys.repairs[w].occupied
    requires sys.repairs[w].job.chunk in sys.db.chunks && dest in sys.db.nodes
    requires Harmless(sys.db.deletions, sys.db.replicas, sys.repairs[w].job.chunk)
    ensures var d, c := DoFinishRepair(sys, w, dest).db, sys.repairs[w].job.chunk;
      && (Harmless(d.deletions, d.replicas, c) <==> Loc(c, dest) !in sys.db.deletions)
      && (Aimed(sys.db.deletions, sys.db.replicas, c) ==>
            (Aimed(d.deletions, d.replicas, c) <==> Loc(c, dest) !in sys.db.deletions))
  {
    SetRow(sys.db, Loc(sys.repairs[w].job.chunk, dest), Available);
  }

  /**
   Why a copy must not land where a deletion waits: a deletion job queued for a file on a node without a row makes the
   collector remove the replica that a repair has meanwhile put there.
   */
  lemma StrayJobUndoesRepair(db: Db, j: JobId, dest: NodeId, lease: nat)
    requires j.chunk in db.chunks && dest in db.nodes && Loc(j.chunk, dest) !in db.replicas
    requires db.chunks[j.chunk].state == Committed && Loc(j.chunk, dest) !in db.deletions
    ensures var l := Loc(j.chunk, dest);
      var repaired := CompleteRepair(QueueOrphan(db, l), j, dest);
      var swept := FinishDeletion(ClaimDeletions(repaired, {l}, lease), l, db.serial);
      && l in repaired.replicas && repaired.replicas[l] == Available && l in repaired.deletions
      && repaired.deletions[l].serial == db.serial && repaired.deletions[l].due <= repaired.now
      && l !in swept.replicas && AvailableNodes(swept.replicas, j.chunk) == AvailableNodes(db.replicas, j.chunk)
  {
    var l := Loc(j.chunk, dest);
    var queued := QueueOrphan(db, l);
    var repaired := CompleteRepair(queued, j, dest);
    assert queued.replicas == db.replicas && l in queued.deletions;
    RepairAdds(queued, j, dest);
    var claimed := ClaimDeletions(repaired, {l}, lease);
    assert claimed.replicas == repaired.replicas;
    SweepRemoves(claimed, l, db.serial);
  }

  lemma SweepRemoves(db: Db, l: Loc, serial: nat)
    ensures var d := FinishDeletion(db, l, serial);
      l !in d.replicas && AvailableNodes(d.replicas, l.chunk) == AvailableNodes(db.replicas, l.chunk) - {l.node}
  {
    FinishRows(db, l, serial);
  }
}
