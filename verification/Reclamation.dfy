/**
 Garbage collection: every condemned replica goes within a bounded number of attempts, and
 metadata is dropped only after the last replica and job of a chunk.
 */
module Reclamation {
  import opened Tables
  import opened Transactions
  import opened Invariants
  import opened Workers
  import opened Effects
  import Orders

  /** Attempts after which the collector gives up on a node. */
  const MAX_ATTEMPTS: nat := 8

  /** Every replica row the chunk still has is on its way out. */
  ghost predicate Condemned(replicas: map<Loc, ReplicaState>, c: ChunkId) {
    forall n: NodeId :: Loc(c, n) in replicas ==> replicas[Loc(c, n)] == Deleting
  }

  /** The collector's give-up limit is the configured constant. */
  predicate Standard(e: Event) {
    e.FailSweep? ==> e.max == MAX_ATTEMPTS
  }

  /** Nothing writes to the chunk any more: no commit, target, report, stray file or late repair. */
  ghost predicate Undisturbed(sys: System, e: Event, c: ChunkId) {
    && (e.Store? ==> Elsewhere(e.s, c, 0))
    && (e.FinishRepair? && e.w in sys.repairs ==> sys.repairs[e.w].job.chunk != c)
  }

  /** A sweep holds the job at `l`. */
  ghost predicate Held(sys: System, l: Loc) {
    exists g :: Sweeps(sys, g) && sys.sweeps[g].loc == l
  }

  /** How many more claim-and-outcome rounds the job at `l` can take. */
  ghost function RoundsLeft(sys: System, l: Loc): nat {
    if l !in sys.db.deletions then 0
    else
      var spent := sys.db.deletions[l].attempts;
      var budget := if Held(sys, l) then MAX_ATTEMPTS + 1 else MAX_ATTEMPTS;
      if spent < budget then budget - spent else 1
  }

  /** The event reports an outcome for the job at `l` within the claim's lease. */
  ghost predicate Outcome(sys: System, e: Event, l: Loc) {
    (e.FinishSweep? || e.FailSweep?) && Sweeps(sys, e.g) && sys.sweeps[e.g].loc == l
  }

  ghost function Rounds(sys: System, events: seq<Event>, l: Loc): nat
    decreases |events|
  {
    if events == [] then 0
    else
      var past := events[..|events| - 1];
      Rounds(sys, past, l) + if Outcome(Play(sys, past), events[|events| - 1], l) then 1 else 0
  }

  // ------------------------------------------------------------- one event, one job

  /** The step neither adds a job for the chunk nor changes a queued one. */
  lemma PublicDoomed(db: Db, s: Step, c: ChunkId)
    requires Inv(db) && Public(s) && Elsewhere(s, c, 0) && Condemned(db.replicas, c)
    ensures var d := Apply(db, s);
      && Condemned(d.replicas, c)
      && forall n: NodeId :: Loc(c, n) in d.deletions ==>
           Loc(c, n) in db.deletions && d.deletions[Loc(c, n)] == db.deletions[Loc(c, n)]
  {
    PublicGentle(db, s, c, 0);
    PublicQueues(db, s);
  }

  lemma StoreRounds(sys: System, s: Step, l: Loc)
    requires Inv(sys.db) && Condemned(sys.db.replicas, l.chunk)
    requires Public(s) && Elsewhere(s, l.chunk, 0)
    ensures RoundsLeft(ApplyStore(sys, s), l) <= RoundsLeft(sys, l)
    ensures Condemned(ApplyStore(sys, s).db.replicas, l.chunk)
  {
    var next := ApplyStore(sys, s);
    PublicDoomed(sys.db, s, l.chunk);
    PublicQueues(sys.db, s);
    if Held(next, l) {
      var g :| Sweeps(next, g) && next.sweeps[g].loc == l;
      assert Sweeps(sys, g);
    }
    assert l == Loc(l.chunk, l.node);
  }

  /** Claiming prepays the attempt it records. */
  lemma TakeRounds(sys: System, g: WorkerId, t: Loc, lease: nat, l: Loc)
    requires LeaseInv(sys)
    ensures RoundsLeft(DoTakeDeletion(sys, g, t, lease), l) <= RoundsLeft(sys, l)
  {
    var next := DoTakeDeletion(sys, g, t, lease);
    if next != sys {
      assert forall h | Sweeps(next, h) && h != g :: Sweeps(sys, h);
    }
  }

  /** Forgetting a claim, or repairing elsewhere, gives no job more rounds. */
  lemma ForgetRounds(sys: System, next: System, l: Loc)
    requires next.db.deletions == sys.db.deletions && sys.db.now <= next.db.now
    requires forall g | g in next.sweeps :: g in sys.sweeps && next.sweeps[g] == sys.sweeps[g]
    ensures RoundsLeft(next, l) <= RoundsLeft(sys, l)
  {
    assert forall g | Sweeps(next, g) :: Sweeps(sys, g);
  }

  lemma FinishJob(db: Db, l: Loc, serial: nat)
    requires l in db.deletions && db.deletions[l].serial == serial
    ensures FinishDeletion(db, l, serial).deletions == db.deletions - {l}
  {
  }

  lemma FailJob(db: Db, l: Loc, serial: nat, backoff: nat, max: nat)
    requires l in db.deletions && db.deletions[l].serial == serial
    ensures FailDeletion(db, l, serial, backoff, max).deletions ==
      if db.deletions[l].attempts >= max then db.deletions - {l}
      else db.deletions[l := db.deletions[l].(due := db.now + backoff)]
  {
  }

  /** An outcome removes its job, or delays one that has attempts left, and touches no other. */
  lemma OutcomeJob(sys: System, e: Event)
    requires LeaseInv(sys) && Standard(e) && (e.FinishSweep? || e.FailSweep?) && Sweeps(sys, e.g)
    ensures var jobs, t := React(sys, e).db.deletions, sys.sweeps[e.g].loc;
      && t in sys.db.deletions
      && (|| jobs == sys.db.deletions - {t}
          || (&& t in jobs && jobs[t].attempts == sys.db.deletions[t].attempts < MAX_ATTEMPTS
              && jobs - {t} == sys.db.deletions - {t}))
  {
    var s := sys.sweeps[e.g];
    if e.FinishSweep? {
      FinishJob(sys.db, s.loc, s.serial);
    } else {
      FailJob(sys.db, s.loc, s.serial, e.backoff, e.max);
    }
  }

  /** It also releases its claim. */
  lemma OutcomeReleases(sys: System, e: Event)
    requires (e.FinishSweep? || e.FailSweep?) && Sweeps(sys, e.g)
    ensures forall h | Sweeps(React(sys, e), h) ::
      Sweeps(sys, h) && h != e.g && React(sys, e).sweeps[h] == sys.sweeps[h]
  {
  }

  lemma OutcomeElsewhere(sys: System, e: Event, l: Loc)
    requires LeaseInv(sys) && Standard(e) && (e.FinishSweep? || e.FailSweep?) && Sweeps(sys, e.g)
    requires sys.sweeps[e.g].loc != l
    ensures RoundsLeft(React(sys, e), l) <= RoundsLeft(sys, l)
  {
    var next, t := React(sys, e), sys.sweeps[e.g].loc;
    OutcomeReleases(sys, e);
    OutcomeJob(sys, e);
    assert l in next.db.deletions ==> l in next.db.deletions - {t} && l in sys.db.deletions - {t};
    assert l in next.db.deletions ==>
      next.db.deletions[l] == (next.db.deletions - {t})[l] == (sys.db.deletions - {t})[l];
  }

  lemma OutcomeHere(sys: System, e: Event, l: Loc)
    requires LeaseInv(sys) && Standard(e) && Outcome(sys, e, l)
    ensures RoundsLeft(React(sys, e), l) + 1 <= RoundsLeft(sys, l)
  {
    OutcomeReleases(sys, e);
    OutcomeJob(sys, e);
    assert Held(sys, l);
    assert !Held(React(sys, e), l);
  }

  /** Each outcome uses up at least one round of its job and none of any other. */
  lemma OutcomeRounds(sys: System, e: Event, l: Loc)
    requires LeaseInv(sys) && Standard(e) && (e.FinishSweep? || e.FailSweep?)
    ensures RoundsLeft(React(sys, e), l) + (if Outcome(sys, e, l) then 1 else 0) <= RoundsLeft(sys, l)
  {
    if Outcome(sys, e, l) {
      OutcomeHere(sys, e, l);
    } else if Sweeps(sys, e.g) {
      OutcomeElsewhere(sys, e, l);
    }
  }

  /** A failed deletion takes away at most its own row, and only when that is DELETING. */
  lemma FailRows(db: Db, l: Loc, serial: nat, backoff: nat, max: nat)
    ensures var d := FailDeletion(db, l, serial, backoff, max);
      d.replicas == db.replicas || (l in db.replicas && db.replicas[l] == Deleting && d.replicas == db.replicas - {l})
  {
    if db.replicas != FailDeletion(db, l, serial, backoff, max).replicas {
      ExpireRows(db, l, serial);
    }
  }

  /** Collector events take rows away and put none back. */
  lemma SweepCondemned(sys: System, e: Event, c: ChunkId)
    requires Condemned(sys.db.replicas, c)
    requires e.TakeDeletion? || e.FinishSweep? || e.FailSweep? || e.LoseSweeper?
    ensures Condemned(React(sys, e).db.replicas, c)
  {
    if e.FinishSweep? && Sweeps(sys, e.g) {
      FinishRows(sys.db, sys.sweeps[e.g].loc, sys.sweeps[e.g].serial);
    } else if e.FailSweep? && Sweeps(sys, e.g) {
      FailRows(sys.db, sys.sweeps[e.g].loc, sys.sweeps[e.g].serial, e.backoff, e.max);
    } else {
      assert React(sys, e).db.replicas == sys.db.replicas;
    }
  }

  lemma RepairCondemned(sys: System, e: Event, c: ChunkId)
    requires Condemned(sys.db.replicas, c) && Undisturbed(sys, e, c)
    requires e.TakeJob? || e.FinishRepair? || e.DeferRepair? || e.GiveUpRepair? || e.LoseWorker?
    ensures Condemned(React(sys, e).db.replicas, c)
    ensures React(sys, e).db.deletions == sys.db.deletions && React(sys, e).db.now == sys.db.now
    ensures React(sys, e).sweeps == sys.sweeps
  {
    if e.FinishRepair? && Holding(sys, e.w) && e.dest !in sys.repairs[e.w].occupied {
      LateRowElsewhere(sys.db, sys.repairs[e.w].job, e.dest, c);
    } else {
      assert React(sys, e).db.replicas == sys.db.replicas;
    }
  }

  lemma LateRowElsewhere(db: Db, j: JobId, dest: NodeId, c: ChunkId)
    requires j.chunk != c && Condemned(db.replicas, c)
    ensures Condemned(CompleteRepair(db, j, dest).replicas, c) && CompleteRepair(db, j, dest).deletions == db.deletions
  {
  }

  lemma ReactRounds(sys: System, e: Event, l: Loc)
    requires Inv(sys.db) && LeaseInv(sys) && Condemned(sys.db.replicas, l.chunk)
    requires Undisturbed(sys, e, l.chunk) && Standard(e)
    ensures RoundsLeft(React(sys, e), l) + (if Outcome(sys, e, l) then 1 else 0) <= RoundsLeft(sys, l)
    ensures Condemned(React(sys, e).db.replicas, l.chunk)
  {
    match e
    case Store(s) =>
      if Public(s) {
        StoreRounds(sys, s, l);
      }
    case TakeDeletion(g, t, lease) =>
      TakeRounds(sys, g, t, lease, l);
      SweepCondemned(sys, e, l.chunk);
    case FinishSweep(_) =>
      OutcomeRounds(sys, e, l);
      SweepCondemned(sys, e, l.chunk);
    case FailSweep(_, _, _) =>
      OutcomeRounds(sys, e, l);
      SweepCondemned(sys, e, l.chunk);
    case LoseSweeper(_) =>
      ForgetRounds(sys, React(sys, e), l);
      SweepCondemned(sys, e, l.chunk);
    case _ =>
      RepairCondemned(sys, e, l.chunk);
      ForgetRounds(sys, React(sys, e), l);
  }

  // -------------------------------------------------------------------- whole runs

  ghost predicate UndisturbedRun(sys: System, events: seq<Event>, c: ChunkId)
    decreases |events|
  {
    events != [] ==>
      && UndisturbedRun(sys, events[..|events| - 1], c)
      && Undisturbed(Play(sys, events[..|events| - 1]), events[|events| - 1], c)
      && Standard(events[|events| - 1])
  }

  /**
   Reclamation is bounded: in any run, with any number of collectors crashing at any point,
   the rounds a job takes plus the rounds it has left never exceed the rounds it had.
   */
  lemma {:induction false} BoundedRounds(sys: System, events: seq<Event>, l: Loc)
    requires Inv(sys.db) && LeaseInv(sys) && Condemned(sys.db.replicas, l.chunk) && UndisturbedRun(sys, events, l.chunk)
    ensures Rounds(sys, events, l) + RoundsLeft(Play(sys, events), l) <= RoundsLeft(sys, l)
    ensures Condemned(Play(sys, events).db.replicas, l.chunk)
    decreases |events|
  {
    if events != [] {
      var past := events[..|events| - 1];
      BoundedRounds(sys, past, l);
      PlayInv(sys, past);
      ReactRounds(Play(sys, past), events[|events| - 1], l);
    }
  }

  /** A job nobody holds takes at most eight rounds. */
  lemma AtMostEightRounds(sys: System, events: seq<Event>, l: Loc)
    requires Inv(sys.db) && LeaseInv(sys) && Condemned(sys.db.replicas, l.chunk) && UndisturbedRun(sys, events, l.chunk)
    requires !Held(sys, l)
    ensures Rounds(sys, events, l) <= 8
    ensures Rounds(sys, events, l) == 8 ==> l !in Play(sys, events).db.deletions
  {
    BoundedRounds(sys, events, l);
  }

  // ----------------------------------------------------------------- when a job goes

  /** The event ends the job at `l`: its node answered, or its last attempt failed. */
  ghost predicate Resolves(sys: System, e: Event, l: Loc) {
    && Outcome(sys, e, l) && l in sys.db.deletions
    && (e.FinishSweep? || sys.db.deletions[l].attempts >= MAX_ATTEMPTS)
  }

  ghost predicate Resolved(sys: System, events: seq<Event>, l: Loc)
    decreases |events|
  {
    events != [] &&
    var past := events[..|events| - 1];
    Resolved(sys, past, l) || Resolves(Play(sys, past), events[|events| - 1], l)
  }

  /** No event but such an outcome ends a job, and no event brings one in. */
  ghost predicate EndsOnly(sys: System, e: Event, l: Loc) {
    l in React(sys, e).db.deletions <==> l in sys.db.deletions && !Resolves(sys, e, l)
  }

  lemma OutcomeEnds(sys: System, e: Event, l: Loc)
    requires LeaseInv(sys) && Standard(e) && (e.FinishSweep? || e.FailSweep?)
    ensures EndsOnly(sys, e, l)
  {
    if Sweeps(sys, e.g) {
      var s := sys.sweeps[e.g];
      if e.FinishSweep? {
        FinishJob(sys.db, s.loc, s.serial);
      } else {
        FailJob(sys.db, s.loc, s.serial, e.backoff, e.max);
      }
    }
  }

  lemma StoreEnds(sys: System, s: Step, l: Loc)
    requires Inv(sys.db) && Condemned(sys.db.replicas, l.chunk) && Public(s) && Elsewhere(s, l.chunk, 0)
    ensures EndsOnly(sys, Store(s), l)
  {
    PublicDoomed(sys.db, s, l.chunk);
    PublicQueues(sys.db, s);
    assert l == Loc(l.chunk, l.node);
  }

  lemma ReactEnds(sys: System, e: Event, l: Loc)
    requires Inv(sys.db) && LeaseInv(sys) && Condemned(sys.db.replicas, l.chunk)
    requires Undisturbed(sys, e, l.chunk) && Standard(e)
    ensures EndsOnly(sys, e, l)
  {
    match e
    case Store(s) =>
      if Public(s) {
        StoreEnds(sys, s, l);
      }
    case TakeDeletion(g, t, lease) => ClaimLeavesRows(sys.db, {t}, lease);
    case FinishSweep(_) => OutcomeEnds(sys, e, l);
    case FailSweep(_, _, _) => OutcomeEnds(sys, e, l);
    case LoseSweeper(_) =>
    case _ => RepairCondemned(sys, e, l.chunk);
  }

  /**
   When a job goes: over any undisturbed run a job of a condemned chunk is gone if and only if a node answered
   for it or its last attempt failed, and no new job appears.
   */
  lemma {:induction false} JobGoneIff(sys: System, events: seq<Event>, l: Loc)
    requires Inv(sys.db) && LeaseInv(sys) && Condemned(sys.db.replicas, l.chunk) && UndisturbedRun(sys, events, l.chunk)
    ensures l in Play(sys, events).db.deletions <==> l in sys.db.deletions && !Resolved(sys, events, l)
    decreases |events|
  {
    if events != [] {
      var past := events[..|events| - 1];
      JobGoneIff(sys, past, l);
      PlayInv(sys, past);
      BoundedRounds(sys, past, l);
      ReactEnds(Play(sys, past), events[|events| - 1], l);
    }
  }

  /** Whoever has used up its rounds is resolved. */
  lemma SpentIsResolved(sys: System, events: seq<Event>, l: Loc)
    requires Inv(sys.db) && LeaseInv(sys) && Condemned(sys.db.replicas, l.chunk) && UndisturbedRun(sys, events, l.chunk)
    requires l in sys.db.deletions && Rounds(sys, events, l) >= RoundsLeft(sys, l)
    ensures Resolved(sys, events, l)
  {
    BoundedRounds(sys, events, l);
    JobGoneIff(sys, events, l);
  }

  /** A condemned chunk without jobs has no replica left. */
  lemma DrainedReclaimed(db: Db, c: ChunkId)
    requires DeletingQueued(db) && Condemned(db.replicas, c)
    ensures Reclaimed(db, c) <==> forall n: NodeId :: Loc(c, n) !in db.deletions
  {
    assert forall l | l in db.replicas && l.chunk == c :: l == Loc(c, l.node);
    assert forall l | l in db.deletions && l.chunk == c :: l == Loc(c, l.node);
  }

  /**
   Reclamation is complete: over any undisturbed run a condemned chunk ends without replica and job if and only
   if each job it had was resolved, by an answer at any attempt or by the failure of the last one.
   */
  lemma CondemnedReclaimedIff(sys: System, events: seq<Event>, c: ChunkId)
    requires Inv(sys.db) && LeaseInv(sys) && Condemned(sys.db.replicas, c) && UndisturbedRun(sys, events, c)
    ensures Reclaimed(Play(sys, events).db, c) <==>
            forall n: NodeId :: Loc(c, n) in sys.db.deletions ==> Resolved(sys, events, Loc(c, n))
  {
    PlayInv(sys, events);
    BoundedRounds(sys, events, Loc(c, 0));
    forall n: NodeId
      ensures Loc(c, n) in Play(sys, events).db.deletions <==>
        Loc(c, n) in sys.db.deletions && !Resolved(sys, events, Loc(c, n))
    {
      JobGoneIff(sys, events, Loc(c, n));
    }
    DrainedReclaimed(Play(sys, events).db, c);
  }

  // ------------------------------------------------- how objects become condemned

  lemma RetireCondemns(db: Db, cs: set<ChunkId>, c: ChunkId)
    requires c in cs
    ensures Condemned(RetireChunks(db, cs).replicas, c)
  {
  }

  /** Deleting a key condemns every chunk of the version it hid. */
  lemma DeleteCondemns(db: Db, k: Key, o: ObjectId, c: ChunkId)
    requires o in CompleteVersions(db.objects, k) && c in Owned(db.chunks, ObjectOwner(o))
    ensures var d := DeleteObject(db, k);
      && Condemned(d.replicas, c) && d.objects[o].state == Retiring && d.chunks == db.chunks
  {
    var prior := CompleteVersions(db.objects, k);
    RetireCondemns(SetObjectStates(db, prior, Retiring), OwnedByObjects(db.chunks, prior), c);
  }

  /** So does overwriting it. */
  lemma OverwriteCondemns(db: Db, v: ObjectId, size: nat, count: nat, o: ObjectId, c: ChunkId)
    requires CompleteAccepted(db, v, count) && o in CompleteVersions(db.objects, db.objects[v].key)
    requires c in Owned(db.chunks, ObjectOwner(o))
    ensures var d := CompleteUpload(db, v, size, count);
      && Condemned(d.replicas, c) && d.objects[o].state == Retiring && d.chunks == db.chunks
  {
    var prior := CompleteVersions(db.objects, db.objects[v].key) - {v};
    RetireCondemns(SetObjectStates(db, prior, Retiring), OwnedByObjects(db.chunks, prior), c);
  }

  /** And aborting an upload condemns what it wrote. */
  lemma AbortCondemns(db: Db, os: set<ObjectId>, o: ObjectId, c: ChunkId)
    requires o in InFlight(db, os) && c in Owned(db.chunks, ObjectOwner(o))
    ensures var d := AbortUploads(db, os);
      && Condemned(d.replicas, c) && d.objects[o].state == Failed && c in d.chunks && d.chunks[c].state == Orphaned
  {
    var hit := InFlight(db, os);
    var cs := OwnedByObjects(db.chunks, hit);
    RetireCondemns(OrphanChunks(SetObjectStates(db, hit, Failed), cs), cs, c);
  }

  /** Re-uploading a part number fails every earlier attempt and condemns its chunks. */
  lemma BeginPartSupersedes(db: Db, p: PartId, u: UploadId, number: nat, q: PartId, c: ChunkId)
    requires 1 <= number <= 10000 && u in db.uploads && db.uploads[u].state == InProgress && p !in db.parts
    requires q in PriorAttempts(db.parts, u, number) && c in Owned(db.chunks, PartOwner(q))
    ensures var d := BeginPart(db, p, u, number);
      && p in d.parts && d.parts[p] == PartRow(u, number, PartUploading, 0, 0, "")
      && q in d.parts && d.parts[q].state == PartFailed
      && c in d.chunks && d.chunks[c].state == Orphaned && Condemned(d.replicas, c)
  {
    var ps := PriorAttempts(db.parts, u, number);
    var cs := OwnedByParts(db.chunks, ps);
    RetireCondemns(OrphanChunks(SetPartsFailed(db, ps), cs), cs, c);
  }

  /** Aborting a session fails all its parts and condemns all their chunks. */
  lemma AbortMultipartCondemns(db: Db, u: UploadId, p: PartId, c: ChunkId)
    requires u in db.uploads && db.uploads[u].state in {InProgress, Completing}
    requires p in PartsOf(db.parts, u) && c in Owned(db.chunks, PartOwner(p))
    ensures var d := AbortMultipart(db, u);
      && u in d.uploads && d.uploads[u].state == Aborted && p in d.parts && d.parts[p].state == PartFailed
      && c in d.chunks && d.chunks[c].state == Orphaned && Condemned(d.replicas, c)
  {
    var closed := db.(uploads := db.uploads[u := db.uploads[u].(state := Aborted)]);
    var ps := PartsOf(db.parts, u);
    var cs := OwnedByParts(db.chunks, ps);
    RetireCondemns(OrphanChunks(SetPartsFailed(closed, ps), cs), cs, c);
  }

  // ----------------------------------------------------------------------- purging

  /** Purging never forgets a chunk that still has a replica or a deletion job. */
  lemma PurgeOnlyReclaimed(db: Db, cs: set<ChunkId>, os: set<ObjectId>, c: ChunkId)
    requires c in db.chunks && c !in PurgeReclaimed(db, cs, os).chunks
    ensures Reclaimed(db, c)
  {
    var first := DropChunks(db, PurgeableChunks(db, cs));
    if c in first.chunks {
      var gone := PurgeableObjects(first, os);
      assert c in OwnedByObjects(first.chunks, gone);
      assert c in Owned(first.chunks, ObjectOwner(first.chunks[c].owner.oid));
    }
  }

  /** An object is purged exactly when it was retired or failed and all its chunks are reclaimed. */
  lemma PurgeExact(db: Db, cs: set<ChunkId>, os: set<ObjectId>, o: ObjectId)
    requires o in db.objects && o in os
    ensures o !in PurgeReclaimed(db, cs, os).objects <==>
      && db.objects[o].state in {Retiring, Failed}
      && forall c | c in Owned(db.chunks, ObjectOwner(o)) :: Reclaimed(db, c)
    ensures o !in PurgeReclaimed(db, cs, os).objects ==> Owned(PurgeReclaimed(db, cs, os).chunks, ObjectOwner(o)) == {}
  {
    var first := DropChunks(db, PurgeableChunks(db, cs));
    FirstPass(db, cs);
    SecondPass(db, first, os, o);
  }

  /** Dropping orphaned chunks first drops only reclaimed ones and hides no replica or job. */
  lemma FirstPass(db: Db, cs: set<ChunkId>)
    ensures var first := DropChunks(db, PurgeableChunks(db, cs));
      && first.objects == db.objects
      && (forall c | c in first.chunks :: c in db.chunks && first.chunks[c] == db.chunks[c])
      && (forall c | c in db.chunks && c !in first.chunks :: Reclaimed(db, c))
      && (forall c: ChunkId :: Reclaimed(first, c) <==> Reclaimed(db, c))
  {
  }

  lemma SecondPass(db: Db, first: Db, os: set<ObjectId>, o: ObjectId)
    requires o in db.objects && o in os && first.objects == db.objects
    requires forall c | c in first.chunks :: c in db.chunks && first.chunks[c] == db.chunks[c]
    requires forall c | c in db.chunks && c !in first.chunks :: Reclaimed(db, c)
    requires forall c: ChunkId :: Reclaimed(first, c) <==> Reclaimed(db, c)
    ensures o in PurgeableObjects(first, os) <==>
      && db.objects[o].state in {Retiring, Failed}
      && forall c | c in Owned(db.chunks, ObjectOwner(o)) :: Reclaimed(db, c)
  {
    assert forall c | c in Owned(db.chunks, ObjectOwner(o)) ::
      c in first.chunks ==> c in Owned(first.chunks, ObjectOwner(o));
  }

  // ------------------------------------------------- the replica nobody will collect

  predicate Collecting(e: Event) {
    match e
    case Store(OnGc(g)) => g.DoPurge?
    case Store(Tick(_)) => true
    case TakeDeletion(_, _, _) => true
    case FinishSweep(_) => true
    case FailSweep(_, _, _) => true
    case LoseSweeper(_) => true
    case _ => false
  }

  /**
   A repair that finishes after its object was deleted leaves an AVAILABLE replica of a retired
   object, with no deletion job.
   */
  lemma LateRepairStrands(db: Db, k: Key, o: ObjectId, j: JobId, dest: NodeId)
    requires o in CompleteVersions(db.objects, k) && j.chunk in Owned(db.chunks, ObjectOwner(o)) && dest in db.nodes
    requires Loc(j.chunk, dest) !in db.replicas && Loc(j.chunk, dest) !in db.deletions
    ensures var d, l := CompleteRepair(DeleteObject(db, k), j, dest), Loc(j.chunk, dest);
      && o in d.objects && d.objects[o].state == Retiring && l.chunk in Owned(d.chunks, ObjectOwner(o))
      && l in d.replicas && d.replicas[l] == Available && l !in d.deletions
  {
    DeleteCondemns(db, k, o, j.chunk);
    DeleteKeepsRows(db, k, j.chunk, dest);
    LateRow(DeleteObject(db, k), j, dest);
  }

  lemma LateRow(db: Db, j: JobId, dest: NodeId)
    requires j.chunk in db.chunks && dest in db.nodes
    ensures var d := CompleteRepair(db, j, dest);
      && d.objects == db.objects && d.chunks == db.chunks && d.deletions == db.deletions
      && Loc(j.chunk, dest) in d.replicas && d.replicas[Loc(j.chunk, dest)] == Available
  {
  }

  lemma DeleteKeepsRows(db: Db, k: Key, c: ChunkId, n: NodeId)
    requires Loc(c, n) !in db.replicas && Loc(c, n) !in db.deletions
    ensures var d := DeleteObject(db, k);
      Loc(c, n) !in d.replicas && Loc(c, n) !in d.deletions && d.nodes == db.nodes && d.now == db.now
  {
  }

  /** No collector event touches a replica that has no deletion job. */
  lemma CollectorSkips(sys: System, e: Event, l: Loc)
    requires LeaseInv(sys) && Collecting(e)
    requires l in sys.db.replicas && l !in sys.db.deletions
    ensures var d := React(sys, e).db; l in d.replicas && l !in d.deletions && d.replicas[l] == sys.db.replicas[l]
  {
    if e.FinishSweep? && Sweeps(sys, e.g) {
      FinishRows(sys.db, sys.sweeps[e.g].loc, sys.sweeps[e.g].serial);
    } else if e.FailSweep? && Sweeps(sys, e.g) {
      FailRows(sys.db, sys.sweeps[e.g].loc, sys.sweeps[e.g].serial, e.backoff, e.max);
      FailAddsNoJob(sys.db, sys.sweeps[e.g].loc, sys.sweeps[e.g].serial, e.backoff, e.max);
    } else {
      QuietCollector(sys, e);
    }
  }

  lemma QuietCollector(sys: System, e: Event)
    requires Collecting(e) && (e.FinishSweep? || e.FailSweep? ==> !Sweeps(sys, e.g))
    ensures React(sys, e).db.replicas == sys.db.replicas && React(sys, e).db.deletions.Keys == sys.db.deletions.Keys
  {
    match e
    case Store(OnGc(DoPurge(cs, os))) => PurgeLeavesRows(sys.db, cs, os);
    case Store(Tick(dt)) =>
    case TakeDeletion(g, l, lease) => ClaimLeavesRows(sys.db, {l}, lease);
    case LoseSweeper(g) =>
    case FinishSweep(g) =>
    case FailSweep(g, backoff, max) =>
  }

  lemma PurgeLeavesRows(db: Db, cs: set<ChunkId>, os: set<ObjectId>)
    ensures PurgeReclaimed(db, cs, os).replicas == db.replicas && PurgeReclaimed(db, cs, os).deletions == db.deletions
  {
  }

  lemma ClaimLeavesRows(db: Db, batch: set<Loc>, lease: nat)
    ensures ClaimDeletions(db, batch, lease).replicas == db.replicas
    ensures ClaimDeletions(db, batch, lease).deletions.Keys == db.deletions.Keys
  {
  }

  lemma FailAddsNoJob(db: Db, l: Loc, serial: nat, backoff: nat, max: nat)
    ensures FailDeletion(db, l, serial, backoff, max).deletions.Keys <= db.deletions.Keys
  {
  }

  /** However long the collector alone runs, such a replica stays and its chunk is never purged. */
  lemma {:induction false} StrandedForever(sys: System, events: seq<Event>, l: Loc)
    requires Inv(sys.db) && LeaseInv(sys) && forall e | e in events :: Collecting(e)
    requires l in sys.db.replicas && l !in sys.db.deletions
    ensures var d := Play(sys, events).db; l in d.replicas && l !in d.deletions && l.chunk in d.chunks
    decreases |events|
  {
    if events == [] {
    } else {
      var past := events[..|events| - 1];
      StrandedForever(sys, past, l);
      PlayInv(sys, past);
      CollectorSkips(Play(sys, past), events[|events| - 1], l);
      PlayInv(sys, events);
    }
  }

  // ------------------------------------------------------------- one collector pass

  /** The delay after a failed attempt grows with the number of attempts. */
  function Backoff(attempts: nat, interval: nat): nat {
    attempts * interval
  }

  /** What one claim and its outcome make of a job and its row. */
  ghost predicate AfterRound(before: Db, after: Db, l: Loc, reached: bool, interval: nat)
    requires l in before.deletions
  {
    var spent := before.deletions[l].attempts + 1;
    if reached then
      l !in after.replicas && l !in after.deletions
    else if spent >= MAX_ATTEMPTS then
      l !in after.deletions && (l in after.replicas <==> l in before.replicas && before.replicas[l] != Deleting)
    else
      && (l in after.replicas <==> l in before.replicas) && l in after.deletions
      && after.deletions[l] == DeletionRow(before.deletions[l].serial, spent, before.now + spent * interval)
  }

  /** Outside `ls` no row and no job differs. */
  ghost predicate Untouched(before: Db, after: Db, ls: set<Loc>) {
    && after.now == before.now
    && (forall l: Loc | l !in ls ::
          && (l in after.replicas <==> l in before.replicas)
          && (l in before.replicas ==> after.replicas[l] == before.replicas[l]))
    && (forall l: Loc | l !in ls ::
          && (l in after.deletions <==> l in before.deletions)
          && (l in before.deletions ==> after.deletions[l] == before.deletions[l]))
  }

  lemma ReachedOutcome(db: Db, l: Loc, serial: nat)
    requires l in db.deletions && db.deletions[l].serial == serial
    ensures var d := FinishDeletion(db, l, serial);
      Untouched(db, d, {l}) && l !in d.replicas && l !in d.deletions
  {
    FinishRows(db, l, serial);
  }

  lemma ExpiredOutcome(db: Db, l: Loc, serial: nat)
    requires l in db.deletions && db.deletions[l].serial == serial
    ensures var d := ExpireDeletion(db, l, serial);
      && Untouched(db, d, {l}) && l !in d.deletions
      && (l in d.replicas <==> l in db.replicas && db.replicas[l] != Deleting)
  {
    ExpireRows(db, l, serial);
  }

  /** The store's reaction to one node call. */
  function Settle(db: Db, l: Loc, serial: nat, reached: bool, backoff: nat): Db {
    if reached then FinishDeletion(db, l, serial) else FailDeletion(db, l, serial, backoff, MAX_ATTEMPTS)
  }

  /** The job at `l` as the claim left it. */
  ghost predicate Waiting(before: Db, db: Db, l: Loc) {
    && l in before.deletions && l in db.deletions && db.now == before.now
    && db.deletions[l].serial == before.deletions[l].serial
    && db.deletions[l].attempts == before.deletions[l].attempts + 1
    && (l in db.replicas <==> l in before.replicas)
    && (l in before.replicas ==> db.replicas[l] == before.replicas[l])
  }

  lemma SettleRound(before: Db, db: Db, l: Loc, reached: bool, interval: nat)
    requires Waiting(before, db, l)
    ensures var d := Settle(db, l, db.deletions[l].serial, reached, Backoff(db.deletions[l].attempts, interval));
      AfterRound(before, d, l, reached, interval) && Untouched(db, d, {l})
  {
    if reached {
      ReachedOutcome(db, l, db.deletions[l].serial);
    } else if db.deletions[l].attempts >= MAX_ATTEMPTS {
      ExpiredOutcome(db, l, db.deletions[l].serial);
    } else {
      DelayedOutcome(db, l, Backoff(db.deletions[l].attempts, interval));
    }
  }

  lemma DelayedOutcome(db: Db, l: Loc, backoff: nat)
    requires l in db.deletions && db.deletions[l].attempts < MAX_ATTEMPTS
    ensures var d := FailDeletion(db, l, db.deletions[l].serial, backoff, MAX_ATTEMPTS);
      && Untouched(db, d, {l}) && d.replicas == db.replicas
      && l in d.deletions && d.deletions[l] == db.deletions[l].(due := db.now + backoff)
  {
  }

  lemma PassStep(start: Db, db: Db, jobs: seq<Loc>, i: nat, reached: Loc -> bool, interval: nat)
    requires i < |jobs| && forall k | 0 <= k < |jobs| :: jobs[k] in start.deletions
    requires forall a, b | 0 <= a < b < |jobs| :: jobs[a] != jobs[b]
    requires Passed(start, db, jobs, i, reached, interval)
    ensures jobs[i] in db.deletions
    ensures var row := db.deletions[jobs[i]];
      var d := Settle(db, jobs[i], row.serial, reached(jobs[i]), Backoff(row.attempts, interval));
      Passed(start, d, jobs, i + 1, reached, interval)
  {
    SettleRound(start, db, jobs[i], reached(jobs[i]), interval);
    var row := db.deletions[jobs[i]];
    var d := Settle(db, jobs[i], row.serial, reached(jobs[i]), Backoff(row.attempts, interval));
    OneMorePassed(start, db, d, jobs, i, reached, interval);
  }

  /** The claim records the attempt and pushes the due time, and leaves everything else. */
  lemma ClaimWaits(db: Db, batch: set<Loc>, lease: nat)
    requires forall l | l in batch :: l in db.deletions && db.deletions[l].due <= db.now
    ensures var d := ClaimDeletions(db, batch, lease);
      Untouched(db, d, batch) && forall l | l in batch :: Waiting(db, d, l)
  {
  }

  /** The first `i` jobs are settled, the others still claimed. */
  ghost predicate Passed(start: Db, db: Db, jobs: seq<Loc>, i: nat, reached: Loc -> bool, interval: nat)
    requires i <= |jobs| && forall k | 0 <= k < |jobs| :: jobs[k] in start.deletions
  {
    && (forall k | 0 <= k < i :: AfterRound(start, db, jobs[k], reached(jobs[k]), interval))
    && (forall k | i <= k < |jobs| :: Waiting(start, db, jobs[k]))
    && Untouched(start, db, Orders.Elements(jobs))
  }

  lemma RoundStays(start: Db, before: Db, after: Db, l: Loc, t: Loc, reached: bool, interval: nat)
    requires Untouched(before, after, {t}) && l != t && l in start.deletions
    ensures AfterRound(start, before, l, reached, interval) ==> AfterRound(start, after, l, reached, interval)
    ensures Waiting(start, before, l) ==> Waiting(start, after, l)
  {
    assert l !in {t};
  }

  lemma OneMorePassed(start: Db, before: Db, after: Db, jobs: seq<Loc>, i: nat, reached: Loc -> bool, interval: nat)
    requires i < |jobs| && forall k | 0 <= k < |jobs| :: jobs[k] in start.deletions
    requires forall a, b | 0 <= a < b < |jobs| :: jobs[a] != jobs[b]
    requires Passed(start, before, jobs, i, reached, interval)
    requires AfterRound(start, after, jobs[i], reached(jobs[i]), interval) && Untouched(before, after, {jobs[i]})
    ensures Passed(start, after, jobs, i + 1, reached, interval)
  {
    forall k | 0 <= k < |jobs| && k != i
      ensures k < i ==> AfterRound(start, after, jobs[k], reached(jobs[k]), interval)
      ensures k > i ==> Waiting(start, after, jobs[k])
    {
      RoundStays(start, before, after, jobs[k], jobs[i], reached(jobs[k]), interval);
    }
    assert jobs[i] in Orders.Elements(jobs);
  }

  /** Claims the given due jobs and carries them out one after another. */
  method ProcessDeletions(start: Db, jobs: seq<Loc>, lease: nat, interval: nat, reached: Loc -> bool) returns (db: Db)
    requires forall k | 0 <= k < |jobs| :: jobs[k] in start.deletions && start.deletions[jobs[k]].due <= start.now
    requires forall i, j | 0 <= i < j < |jobs| :: jobs[i] != jobs[j]
    ensures forall k | 0 <= k < |jobs| :: AfterRound(start, db, jobs[k], reached(jobs[k]), interval)
    ensures Untouched(start, db, Orders.Elements(jobs))
  {
    db := ClaimDeletions(start, Orders.Elements(jobs), lease);
    ClaimWaits(start, Orders.Elements(jobs), lease);
    assert forall k | 0 <= k < |jobs| :: jobs[k] in Orders.Elements(jobs);
    var i := 0;
    while i < |jobs|
      invariant 0 <= i <= |jobs| && Passed(start, db, jobs, i, reached, interval)
    {
      var l := jobs[i];
      PassStep(start, db, jobs, i, reached, interval);
      var row := db.deletions[l];
      db := Settle(db, l, row.serial, reached(l), Backoff(row.attempts, interval));
      i := i + 1;
    }
  }
}
