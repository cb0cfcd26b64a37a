/** One repairer per chunk: lease exclusion by chunk rather than by job. */
module Exclusion {
  import opened Tables
  import opened Transactions
  import opened Invariants
  import opened Workers
  import Durability

  /** A held job whose chunk exists is still in the queue. */
  ghost predicate JobsStand(sys: System) {
    forall w | Holding(sys, w) && sys.repairs[w].job.chunk in sys.db.chunks :: sys.repairs[w].job in sys.db.jobs
  }

  /** No two workers repair one chunk within their leases. */
  ghost predicate SoleRepairer(sys: System) {
    forall v, w | Holding(sys, v) && Holding(sys, w) && sys.repairs[v].job.chunk == sys.repairs[w].job.chunk :: v == w
  }

  /** A new chunk's identifier is not one that a worker is still repairing. */
  ghost predicate FreshId(sys: System, e: Event) {
    e.Store? && e.s.OnUploads? && e.s.u.DoReserve? && e.s.u.id !in sys.db.chunks ==>
      forall w | w in sys.repairs :: sys.repairs[w].job.chunk != e.s.u.id
  }

  ghost predicate FreshRun(sys: System, events: seq<Event>)
    decreases |events|
  {
    events != [] ==>
      FreshRun(sys, events[..|events| - 1]) && FreshId(Play(sys, events[..|events| - 1]), events[|events| - 1])
  }

  // --------------------------------------------------------------------- one event

  lemma StoreStands(sys: System, s: Step)
    requires OneJob(sys.db) && LeaseInv(sys) && JobsStand(sys) && Public(s) && FreshId(sys, Store(s))
    ensures JobsStand(ApplyStore(sys, s))
  {
    var next := ApplyStore(sys, s);
    PublicQueues(sys.db, s);
    forall w | Holding(next, w) && next.repairs[w].job.chunk in next.db.chunks
      ensures next.repairs[w].job in next.db.jobs
    {
      assert Holding(sys, w);
      if sys.repairs[w].job.chunk !in sys.db.chunks {
        Durability.Minting(sys.db, s, sys.repairs[w].job.chunk);
        assert false;
      }
    }
  }

  /** Workers never take a job out of the queue. */
  lemma WorkersKeepJobs(sys: System, e: Event)
    requires !e.Store?
    ensures React(sys, e).db.jobs.Keys >= sys.db.jobs.Keys && React(sys, e).db.chunks == sys.db.chunks
    ensures React(sys, e).db.now == sys.db.now
  {
    if e.FinishRepair? || e.DeferRepair? || e.GiveUpRepair? {
      if Holding(sys, e.w) {
        JobsReported(sys.db, sys.repairs[e.w].job, if e.FinishRepair? then e.dest else 0);
      }
    } else if e.FinishSweep? || e.FailSweep? {
      assert React(sys, e).db.jobs == sys.db.jobs;
    }
  }

  lemma JobsReported(db: Db, j: JobId, dest: NodeId)
    ensures CompleteRepair(db, j, dest).jobs.Keys >= db.jobs.Keys && CloseJob(db, j).jobs.Keys >= db.jobs.Keys
    ensures forall backoff: nat, max: nat :: FailRepair(db, j, backoff, max).jobs.Keys >= db.jobs.Keys
  {
  }

  lemma WorkerMemory(sys: System, e: Event, w: WorkerId)
    requires !e.Store? && Holding(React(sys, e), w)
    ensures
      || (Holding(sys, w) && React(sys, e).repairs[w] == sys.repairs[w])
      || (&& e.TakeJob? && e.w == w && w !in sys.repairs && Claimable(sys.db, e.j)
          && React(sys, e).repairs[w].job == e.j)
  {
  }

  lemma WorkerStands(sys: System, e: Event)
    requires JobsStand(sys) && !e.Store?
    ensures JobsStand(React(sys, e))
  {
    var next := React(sys, e);
    WorkersKeepJobs(sys, e);
    forall w | Holding(next, w) && next.repairs[w].job.chunk in next.db.chunks
      ensures next.repairs[w].job in next.db.jobs
    {
      WorkerMemory(sys, e, w);
    }
  }

  /** A claimable job's chunk has no repairer. */
  lemma ClaimableIsFree(sys: System, j: JobId, v: WorkerId)
    requires OneJob(sys.db) && LeaseInv(sys) && JobsStand(sys) && Claimable(sys.db, j) && Holding(sys, v)
    ensures sys.repairs[v].job.chunk != j.chunk
  {
    var i := sys.repairs[v].job;
    assert i in sys.db.jobs ==> sys.db.jobs[i].state == JobRunning;
  }

  lemma WorkerSole(sys: System, e: Event)
    requires OneJob(sys.db) && LeaseInv(sys) && JobsStand(sys) && SoleRepairer(sys) && !e.Store?
    ensures SoleRepairer(React(sys, e))
  {
    var next := React(sys, e);
    forall v, w | Holding(next, v) && Holding(next, w) && next.repairs[v].job.chunk == next.repairs[w].job.chunk
      ensures v == w
    {
      WorkerMemory(sys, e, v);
      WorkerMemory(sys, e, w);
      if Holding(sys, v) && !Holding(sys, w) {
        ClaimableIsFree(sys, e.j, v);
      } else if Holding(sys, w) && !Holding(sys, v) {
        ClaimableIsFree(sys, e.j, w);
      }
    }
  }

  lemma StoreSole(sys: System, s: Step)
    requires OneJob(sys.db) && SoleRepairer(sys) && Public(s)
    ensures SoleRepairer(ApplyStore(sys, s))
  {
    PublicQueues(sys.db, s);
    assert forall w | Holding(ApplyStore(sys, s), w) :: Holding(sys, w);
  }

  lemma ReactSole(sys: System, e: Event)
    requires OneJob(sys.db) && LeaseInv(sys) && JobsStand(sys) && SoleRepairer(sys) && FreshId(sys, e)
    ensures JobsStand(React(sys, e)) && SoleRepairer(React(sys, e))
  {
    if e.Store? {
      if Public(e.s) {
        StoreStands(sys, e.s);
        StoreSole(sys, e.s);
      }
    } else {
      WorkerStands(sys, e);
      WorkerSole(sys, e);
    }
  }

  /**
   Over every run from a fresh system that mints new identifiers for new chunks, a chunk never has two
   repairers within their leases, whatever has happened to its jobs or to the chunk since they claimed.
   */
  lemma {:induction false} ChunkExclusion(events: seq<Event>)
    requires FreshRun(Boot, events)
    ensures SoleRepairer(Play(Boot, events)) && JobsStand(Play(Boot, events))
    decreases |events|
  {
    if events != [] {
      var past := events[..|events| - 1];
      ChunkExclusion(past);
      EmptyInv();
      PlayInv(Boot, past);
      ReactSole(Play(Boot, past), events[|events| - 1]);
    }
  }
}
