/** Whatever workers and collectors do, the tables move by store steps: a run of the system is a run of the store. */
module Projection {
  import opened Tables
  import opened Transactions
  import opened Workers
  import opened Reference

  /** The worker holds a job and its lease lasts to this very instant or longer. */
  ghost predicate Working(sys: System, w: WorkerId) {
    w in sys.repairs && sys.repairs[w].until >= sys.db.now
  }

  ghost predicate Sweeping(sys: System, g: WorkerId) {
    g in sys.sweeps && sys.sweeps[g].until > sys.db.now
  }

  /** Free, and the job is pending, due, and of a chunk that exists. */
  ghost predicate Takes(sys: System, w: WorkerId, j: JobId) {
    && w !in sys.repairs && j in sys.db.jobs && j.chunk in sys.db.chunks
    && sys.db.jobs[j].state == JobPending && sys.db.jobs[j].due <= sys.db.now
  }

  ghost predicate TakesDeletion(sys: System, g: WorkerId, l: Loc) {
    g !in sys.sweeps && l in sys.db.deletions && sys.db.deletions[l].due <= sys.db.now
  }

  /** The store step an event amounts to, if any. */
  ghost function StepsOf(sys: System, e: Event): seq<Step> {
    match e
    case Store(s) => if Public(s) then [s] else []
    case TakeJob(w, j, lease) => if Takes(sys, w, j) then [OnRepairs(DoClaim(j, lease))] else []
    case FinishRepair(w, dest) =>
      if Working(sys, w) && dest !in sys.repairs[w].occupied
      then [OnRepairs(DoCompleteRepair(sys.repairs[w].job, dest))] else []
    case DeferRepair(w) => if Working(sys, w) then [OnRepairs(DoCloseJob(sys.repairs[w].job))] else []
    case GiveUpRepair(w, backoff, max) =>
      if Working(sys, w) then [OnRepairs(DoFailRepair(sys.repairs[w].job, backoff, max))] else []
    case TakeDeletion(g, l, lease) => if TakesDeletion(sys, g, l) then [OnGc(DoClaimDeletions({l}, lease))] else []
    case FinishSweep(g) =>
      if Sweeping(sys, g) then [OnGc(DoFinishDeletion(sys.sweeps[g].loc, sys.sweeps[g].serial))] else []
    case FailSweep(g, backoff, max) =>
      if Sweeping(sys, g) then [OnGc(DoFailDeletion(sys.sweeps[g].loc, sys.sweeps[g].serial, backoff, max))] else []
    case LoseWorker(_) => []
    case LoseSweeper(_) => []
  }

  /** What a repair worker remembers after an event: what it saw when it took a job, until it is done with it. */
  ghost function RepairMemory(sys: System, e: Event, v: WorkerId): Cell<Repairing> {
    var was := At(sys.repairs, v);
    match e
    case TakeJob(w, j, lease) =>
      if v == w && Takes(sys, w, j)
      then Is(Repairing(j, set l | l in sys.db.replicas && l.chunk == j.chunk :: l.node, sys.db.now + lease)) else was
    case FinishRepair(w, dest) =>
      if v == w && Working(sys, w) && dest !in sys.repairs[w].occupied then Absent else was
    case DeferRepair(w) => if v == w && Working(sys, w) then Absent else was
    case GiveUpRepair(w, _, _) => if v == w && Working(sys, w) then Absent else was
    case LoseWorker(w) => if v == w then Absent else was
    case _ => was
  }

  ghost function SweepMemory(sys: System, e: Event, v: WorkerId): Cell<Workers.Sweeping> {
    var was := At(sys.sweeps, v);
    match e
    case TakeDeletion(g, l, lease) =>
      if v == g && TakesDeletion(sys, g, l)
      then Is(Workers.Sweeping(l, sys.db.deletions[l].serial, sys.db.now + lease)) else was
    case FinishSweep(g) => if v == g && Sweeping(sys, g) then Absent else was
    case FailSweep(g, _, _) => if v == g && Sweeping(sys, g) then Absent else was
    case LoseSweeper(g) => if v == g then Absent else was
    case _ => was
  }

  lemma OneStep(db: Db, s: Step)
    ensures Run(db, [s]) == Apply(db, s) && Run(db, []) == db
  {
    assert [s][..0] == [];
  }

  lemma RepairIsStep(sys: System, e: Event)
    requires e.TakeJob? || e.FinishRepair? || e.DeferRepair? || e.GiveUpRepair? || e.LoseWorker?
    ensures var steps := StepsOf(sys, e); React(sys, e).db == if steps == [] then sys.db else Apply(sys.db, steps[0])
  {
  }

  lemma SweepIsStep(sys: System, e: Event)
    requires e.TakeDeletion? || e.FinishSweep? || e.FailSweep? || e.LoseSweeper?
    ensures var steps := StepsOf(sys, e); React(sys, e).db == if steps == [] then sys.db else Apply(sys.db, steps[0])
  {
  }

  /** One event is at most one store step, taken exactly when its guard allows. */
  lemma EventIsStep(sys: System, e: Event)
    ensures |StepsOf(sys, e)| <= 1 && React(sys, e).db == Run(sys.db, StepsOf(sys, e))
  {
    var steps := StepsOf(sys, e);
    if e.TakeDeletion? || e.FinishSweep? || e.FailSweep? || e.LoseSweeper? {
      SweepIsStep(sys, e);
    } else if !e.Store? {
      RepairIsStep(sys, e);
    }
    if steps != [] {
      OneStep(sys.db, steps[0]);
      assert steps == [steps[0]];
    }
  }

  lemma MemoryMeans(sys: System, e: Event, v: WorkerId)
    ensures At(React(sys, e).repairs, v) == RepairMemory(sys, e, v)
    ensures At(React(sys, e).sweeps, v) == SweepMemory(sys, e, v)
  {
  }

  /** The store steps of a run of the system. */
  ghost function StepsIn(sys: System, events: seq<Event>): seq<Step>
    decreases |events|
  {
    if events == [] then []
    else
      var past := events[..|events| - 1];
      StepsIn(sys, past) + StepsOf(Play(sys, past), events[|events| - 1])
  }

  lemma {:induction false} RunAppend(db: Db, a: seq<Step>, b: seq<Step>)
    ensures Run(db, a + b) == Run(Run(db, a), b)
    decreases |b|
  {
    if b == [] {
      assert a + b == a;
    } else {
      var rest := b[..|b| - 1];
      assert (a + b)[..|a + b| - 1] == a + rest && (a + b)[|a + b| - 1] == b[|b| - 1];
      RunAppend(db, a, rest);
    }
  }

  /**
   A run of the system, with any number of workers and collectors stopping anywhere, leaves the tables where the
   store's own steps leave them: what holds over every run of the store holds over every run of the system.
   */
  lemma {:induction false} PlayIsRun(sys: System, events: seq<Event>)
    ensures Play(sys, events).db == Run(sys.db, StepsIn(sys, events))
    decreases |events|
  {
    if events != [] {
      var past, last := events[..|events| - 1], events[|events| - 1];
      PlayIsRun(sys, past);
      EventIsStep(Play(sys, past), last);
      RunAppend(sys.db, StepsIn(sys, past), StepsOf(Play(sys, past), last));
    }
  }
}
