/** How long the collector keeps at a deletion nobody answers: its attempts are the claims made on it. */
module Attempts {
  import opened Tables
  import opened Transactions
  import opened Invariants
  import opened Workers
  import opened Reclamation
  import Reference
  import Refinement

  /** The event claims the job at `l`. */
  ghost predicate Claims(sys: System, e: Event, l: Loc) {
    && e.TakeDeletion? && e.l == l && e.g !in sys.sweeps
    && l in sys.db.deletions && sys.db.deletions[l].due <= sys.db.now
  }

  ghost function Claimed(sys: System, events: seq<Event>, l: Loc): nat
    decreases |events|
  {
    if events == [] then 0
    else
      var past := events[..|events| - 1];
      Claimed(sys, past, l) + if Claims(Play(sys, past), events[|events| - 1], l) then 1 else 0
  }

  /** A node has confirmed the deletion at `l`. */
  ghost predicate Answered(sys: System, events: seq<Event>, l: Loc)
    decreases |events|
  {
    events != [] &&
    var past, last := events[..|events| - 1], events[|events| - 1];
    Answered(sys, past, l) || (last.FinishSweep? && Outcome(Play(sys, past), last, l))
  }

  /** A store step that is not the collector's own leaves a queued job's attempts alone. */
  lemma StoreAttempts(db: Db, s: Step, l: Loc)
    requires Public(s) && l in db.deletions
    ensures l in Apply(db, s).deletions && Apply(db, s).deletions[l] == db.deletions[l]
  {
    Refinement.DeletionJobs(db, s, l);
    assert Reference.DeletionCell(db, s, l) == Reference.At(db.deletions, l);
  }

  lemma TakeAttempts(sys: System, e: Event, l: Loc)
    requires e.TakeDeletion? && l in sys.db.deletions
    ensures var jobs := React(sys, e).db.deletions;
      l in jobs && jobs[l].attempts == sys.db.deletions[l].attempts + if Claims(sys, e, l) then 1 else 0
  {
  }

  lemma OutcomeAttempts(sys: System, e: Event, l: Loc)
    requires LeaseInv(sys) && Standard(e) && (e.FinishSweep? || e.FailSweep?) && l in sys.db.deletions
    ensures var jobs := React(sys, e).db.deletions; l in jobs ==> jobs[l].attempts == sys.db.deletions[l].attempts
  {
    if Sweeps(sys, e.g) {
      var s := sys.sweeps[e.g];
      if e.FinishSweep? {
        FinishJob(sys.db, s.loc, s.serial);
      } else {
        FailJob(sys.db, s.loc, s.serial, e.backoff, e.max);
      }
    }
  }

  lemma ReactAttempts(sys: System, e: Event, l: Loc)
    requires LeaseInv(sys) && Condemned(sys.db.replicas, l.chunk) && Undisturbed(sys, e, l.chunk) && Standard(e)
    requires l in sys.db.deletions
    ensures var jobs := React(sys, e).db.deletions;
      l in jobs ==> jobs[l].attempts == sys.db.deletions[l].attempts + if Claims(sys, e, l) then 1 else 0
  {
    match e
    case Store(s) =>
      if Public(s) {
        StoreAttempts(sys.db, s, l);
      }
    case TakeDeletion(_, _, _) => TakeAttempts(sys, e, l);
    case FinishSweep(_) => OutcomeAttempts(sys, e, l);
    case FailSweep(_, _, _) => OutcomeAttempts(sys, e, l);
    case LoseSweeper(_) =>
    case _ => RepairCondemned(sys, e, l.chunk);
  }

  /** Over any undisturbed run the attempts recorded on a job still queued are the claims made on it. */
  lemma {:induction false} AttemptsAreClaims(sys: System, events: seq<Event>, l: Loc)
    requires Inv(sys.db) && LeaseInv(sys) && Condemned(sys.db.replicas, l.chunk) && UndisturbedRun(sys, events, l.chunk)
    ensures var jobs := Play(sys, events).db.deletions;
      l in jobs ==>
        l in sys.db.deletions && jobs[l].attempts == sys.db.deletions[l].attempts + Claimed(sys, events, l)
    decreases |events|
  {
    if events != [] {
      var past := events[..|events| - 1];
      AttemptsAreClaims(sys, past, l);
      PlayInv(sys, past);
      BoundedRounds(sys, past, l);
      ReactEnds(Play(sys, past), events[|events| - 1], l);
      if l in Play(sys, past).db.deletions {
        ReactAttempts(Play(sys, past), events[|events| - 1], l);
      }
    }
  }

  /** A job goes unanswered only after its eighth claim. */
  lemma {:induction false} GivenUpAfterEight(sys: System, events: seq<Event>, l: Loc)
    requires Inv(sys.db) && LeaseInv(sys) && Condemned(sys.db.replicas, l.chunk) && UndisturbedRun(sys, events, l.chunk)
    requires l in sys.db.deletions && sys.db.deletions[l].attempts == 0
    ensures Resolved(sys, events, l) ==> Answered(sys, events, l) || Claimed(sys, events, l) >= 8
    decreases |events|
  {
    if events != [] {
      var past := events[..|events| - 1];
      GivenUpAfterEight(sys, past, l);
      AttemptsAreClaims(sys, past, l);
    }
  }

  /** Deleting an object queues a job that has not been tried for every replica without one. */
  lemma DeleteQueuesFresh(db: Db, k: Key, o: ObjectId, l: Loc)
    requires Reference.Shown(db, o, k) && l in db.replicas && l !in db.deletions && DeletingQueued(db)
    requires l.chunk in db.chunks && db.chunks[l.chunk].owner == ObjectOwner(o)
    ensures var d := DeleteObject(db, k); l in d.deletions && d.deletions[l].attempts == 0
  {
    Refinement.DeletionJobs(db, OnUploads(DoDeleteObject(k)), l);
    assert Reference.EndsObject(db, OnUploads(DoDeleteObject(k)), o);
    assert Reference.Retires(db, OnUploads(DoDeleteObject(k)), l.chunk);
  }

  /** A job that has not been tried and is never answered is still queued after seven claims, whoever makes them. */
  lemma UntriedKeepsTrying(sys: System, events: seq<Event>, l: Loc)
    requires Inv(sys.db) && LeaseInv(sys) && Condemned(sys.db.replicas, l.chunk) && UndisturbedRun(sys, events, l.chunk)
    requires l in sys.db.deletions && sys.db.deletions[l].attempts == 0
    requires !Answered(sys, events, l) && Claimed(sys, events, l) <= 7
    ensures var jobs := Play(sys, events).db.deletions; l in jobs && jobs[l].attempts == Claimed(sys, events, l)
  {
    GivenUpAfterEight(sys, events, l);
    JobGoneIff(sys, events, l);
    AttemptsAreClaims(sys, events, l);
  }

  lemma DeleteKeeps(db: Db, k: Key)
    requires Inv(db)
    ensures Inv(DeleteObject(db, k))
  {
    StepKeeps(db, OnUploads(DoDeleteObject(k)), DeleteObject(db, k));
  }

  lemma DeleteStarts(db: Db, d: Db, k: Key, o: ObjectId, l: Loc)
    requires Inv(db) && Reference.Shown(db, o, k) && d == DeleteObject(db, k) && l in db.replicas && l !in db.deletions
    requires l.chunk in db.chunks && db.chunks[l.chunk].owner == ObjectOwner(o)
    ensures Inv(d) && Condemned(d.replicas, l.chunk) && l in d.deletions && d.deletions[l].attempts == 0
  {
    DeleteKeeps(db, k);
    DeleteQueuesFresh(db, k, o, l);
    DeleteCondemns(db, k, o, l.chunk);
  }

  /** So it is with every replica of a deleted object. */
  lemma DeletedKeepsTrying(db: Db, k: Key, o: ObjectId, l: Loc, sys: System, events: seq<Event>)
    requires Inv(db) && Reference.Shown(db, o, k) && l in db.replicas && l !in db.deletions
    requires l.chunk in db.chunks && db.chunks[l.chunk].owner == ObjectOwner(o)
    requires sys.db == DeleteObject(db, k) && LeaseInv(sys) && UndisturbedRun(sys, events, l.chunk)
    requires !Answered(sys, events, l) && Claimed(sys, events, l) <= 7
    ensures var jobs := Play(sys, events).db.deletions; l in jobs && jobs[l].attempts == Claimed(sys, events, l)
  {
    DeleteStarts(db, sys.db, k, o, l);
    UntriedKeepsTrying(sys, events, l);
  }
}
