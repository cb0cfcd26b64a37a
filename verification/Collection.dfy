/**
 What the collector can and cannot reclaim when it alone runs: which replica it can ever remove,
 which chunk it reclaims, and how a deleted object leaves the catalog.
 */
module Collection {
  import opened Tables
  import opened Transactions
  import opened Invariants
  import opened Workers
  import opened Reclamation
  import Effects

  predicate CollectingRun(events: seq<Event>) {
    forall e | e in events :: Collecting(e)
  }

  // ------------------------------------------------------- which replica can be removed

  lemma {:induction false} FreeWorker(taken: set<WorkerId>) returns (g: WorkerId)
    ensures g !in taken && forall h | h in taken :: h < g
    decreases |taken|
  {
    g := 0;
    if taken != {} {
      var h :| h in taken;
      assert taken == taken - {h} + {h};
      var k := FreeWorker(taken - {h});
      g := if k > h then k else h + 1;
    }
  }

  lemma PlayThree(sys: System, a: Event, b: Event, c: Event)
    ensures Play(sys, [a, b, c]) == React(React(React(sys, a), b), c)
  {
    assert [a, b, c][..2] == [a, b] && [a, b][..1] == [a] && [a][..0] == [];
    assert Play(sys, []) == sys;
    assert Play(sys, [a]) == React(sys, a);
    assert Play(sys, [a, b]) == React(Play(sys, [a]), b);
  }

  /** A queued row goes as soon as a collector claims its job and reaches the node. */
  lemma QueuedCanGo(sys: System, l: Loc) returns (events: seq<Event>)
    requires l in sys.db.deletions
    ensures CollectingRun(events) && l !in Play(sys, events).db.replicas
  {
    var g := FreeWorker(sys.sweeps.Keys);
    var wait, take, finish := Store(Tick(sys.db.deletions[l].due)), TakeDeletion(g, l, 1), FinishSweep(g);
    events := [wait, take, finish];
    PlayThree(sys, wait, take, finish);
    var claimed := React(React(sys, wait), take);
    assert Sweeps(claimed, g) && claimed.sweeps[g].loc == l;
    Effects.FinishRows(claimed.db, l, claimed.sweeps[g].serial);
  }

  /** The collector can ever remove a replica if and only if the replica has a deletion job. */
  lemma RemovableIff(sys: System, l: Loc)
    requires Inv(sys.db) && LeaseInv(sys) && l in sys.db.replicas
    ensures (exists events: seq<Event> :: CollectingRun(events) && l !in Play(sys, events).db.replicas) <==>
      l in sys.db.deletions
  {
    if l in sys.db.deletions {
      var events := QueuedCanGo(sys, l);
    } else {
      forall events: seq<Event> | CollectingRun(events) ensures l in Play(sys, events).db.replicas {
        StrandedForever(sys, events, l);
      }
    }
  }

  // ------------------------------------------------------ which chunk is reclaimed

  /** Under collection alone no job gains rounds, whatever state its row is in. */
  lemma CollectRounds(sys: System, e: Event, l: Loc)
    requires LeaseInv(sys) && Collecting(e) && Standard(e)
    ensures RoundsLeft(React(sys, e), l) + (if Outcome(sys, e, l) then 1 else 0) <= RoundsLeft(sys, l)
  {
    match e
    case Store(OnGc(DoPurge(cs, os))) =>
      PurgeLeavesRows(sys.db, cs, os);
      ForgetRounds(sys, React(sys, e), l);
    case Store(Tick(dt)) => ForgetRounds(sys, React(sys, e), l);
    case TakeDeletion(g, t, lease) => TakeRounds(sys, g, t, lease, l);
    case FinishSweep(_) => OutcomeRounds(sys, e, l);
    case FailSweep(_, _, _) => OutcomeRounds(sys, e, l);
    case LoseSweeper(_) => ForgetRounds(sys, React(sys, e), l);
  }

  lemma {:induction false} CollectedRounds(sys: System, events: seq<Event>, l: Loc)
    requires Inv(sys.db) && LeaseInv(sys) && CollectingRun(events) && forall e | e in events :: Standard(e)
    ensures Rounds(sys, events, l) + RoundsLeft(Play(sys, events), l) <= RoundsLeft(sys, l)
    decreases |events|
  {
    if events != [] {
      var past := events[..|events| - 1];
      CollectedRounds(sys, past, l);
      PlayInv(sys, past);
      CollectRounds(Play(sys, past), events[|events| - 1], l);
    }
  }

  /** A node answered a collector's request for `l` during the run. */
  ghost predicate Reached(sys: System, events: seq<Event>, l: Loc)
    decreases |events|
  {
    events != [] &&
    var past, e := events[..|events| - 1], events[|events| - 1];
    Reached(sys, past, l) || (e.FinishSweep? && Outcome(Play(sys, past), e, l))
  }

  /** A row leaves by a node's answer, or with the job given up while the row is DELETING. */
  lemma CollectRow(sys: System, e: Event, l: Loc)
    requires Collecting(e)
    ensures var d := React(sys, e).db;
      && (l in d.replicas ==> l in sys.db.replicas && d.replicas[l] == sys.db.replicas[l])
      && (l in sys.db.replicas && l !in d.replicas ==>
            Outcome(sys, e, l) && (e.FinishSweep? || sys.db.replicas[l] == Deleting))
      && (e.FinishSweep? && Outcome(sys, e, l) ==> l !in d.replicas)
  {
    if e.FinishSweep? && Sweeps(sys, e.g) {
      Effects.FinishRows(sys.db, sys.sweeps[e.g].loc, sys.sweeps[e.g].serial);
    } else if e.FailSweep? && Sweeps(sys, e.g) {
      FailRows(sys.db, sys.sweeps[e.g].loc, sys.sweeps[e.g].serial, e.backoff, e.max);
    } else {
      QuietCollector(sys, e);
    }
  }

  lemma {:induction false} RowHistory(sys: System, events: seq<Event>, l: Loc)
    requires CollectingRun(events)
    ensures var d := Play(sys, events).db;
      && (l in d.replicas ==> l in sys.db.replicas && d.replicas[l] == sys.db.replicas[l] && !Reached(sys, events, l))
      && (l in sys.db.replicas && l !in d.replicas ==> Reached(sys, events, l) || sys.db.replicas[l] == Deleting)
    decreases |events|
  {
    if events != [] {
      var past := events[..|events| - 1];
      RowHistory(sys, past, l);
      CollectRow(Play(sys, past), events[|events| - 1], l);
    }
  }

  lemma CollectEnds(sys: System, e: Event, l: Loc)
    requires LeaseInv(sys) && Collecting(e) && Standard(e)
    ensures EndsOnly(sys, e, l)
  {
    if e.FinishSweep? || e.FailSweep? {
      OutcomeEnds(sys, e, l);
    } else {
      QuietCollector(sys, e);
    }
  }

  /** Under collection alone too, a job goes if and only if it is resolved, whatever state its row is in. */
  lemma {:induction false} CollectedIff(sys: System, events: seq<Event>, l: Loc)
    requires Inv(sys.db) && LeaseInv(sys) && CollectingRun(events) && forall e | e in events :: Standard(e)
    ensures l in Play(sys, events).db.deletions <==> l in sys.db.deletions && !Resolved(sys, events, l)
    decreases |events|
  {
    if events != [] {
      var past := events[..|events| - 1];
      CollectedIff(sys, past, l);
      PlayInv(sys, past);
      CollectEnds(Play(sys, past), events[|events| - 1], l);
    }
  }

  /** Every job of the chunk was resolved; every row had one, and was DELETING or its node answered. */
  ghost predicate Collectable(sys: System, events: seq<Event>, c: ChunkId) {
    && (forall n: NodeId :: Loc(c, n) in sys.db.deletions ==> Resolved(sys, events, Loc(c, n)))
    && (forall n: NodeId :: Loc(c, n) in sys.db.replicas ==>
          Loc(c, n) in sys.db.deletions && (sys.db.replicas[Loc(c, n)] == Deleting || Reached(sys, events, Loc(c, n))))
  }

  /**
   Exactly when the collector alone reclaims a chunk: if and only if each of its jobs was resolved and each of
   its rows had a job and was either DELETING or on a node that answered, at whatever attempt.
   */
  lemma ReclaimedIff(sys: System, events: seq<Event>, c: ChunkId)
    requires Inv(sys.db) && LeaseInv(sys) && CollectingRun(events) && forall e | e in events :: Standard(e)
    ensures Reclaimed(Play(sys, events).db, c) <==> Collectable(sys, events, c)
  {
    var end := Play(sys, events);
    PlayInv(sys, events);
    forall n: NodeId ensures RowFate(sys, events, Loc(c, n)) {
      RowFates(sys, events, Loc(c, n));
    }
    FatesDecide(sys, events, c);
  }

  /** What the run did to one row and its job. */
  ghost predicate RowFate(sys: System, events: seq<Event>, l: Loc) {
    var d := Play(sys, events).db;
    && (l in d.deletions <==> l in sys.db.deletions && !Resolved(sys, events, l))
    && (l in d.replicas ==> l in sys.db.replicas && d.replicas[l] == sys.db.replicas[l] && !Reached(sys, events, l))
    && (l in sys.db.replicas && l !in d.replicas ==>
          l in sys.db.deletions && (Reached(sys, events, l) || sys.db.replicas[l] == Deleting))
  }

  lemma RowFates(sys: System, events: seq<Event>, l: Loc)
    requires Inv(sys.db) && LeaseInv(sys) && CollectingRun(events) && forall e | e in events :: Standard(e)
    ensures RowFate(sys, events, l)
  {
    CollectedIff(sys, events, l);
    RowHistory(sys, events, l);
    if l in sys.db.replicas && l !in sys.db.deletions {
      StrandedForever(sys, events, l);
    }
  }

  lemma FatesDecide(sys: System, events: seq<Event>, c: ChunkId)
    requires Inv(Play(sys, events).db) && forall n: NodeId :: RowFate(sys, events, Loc(c, n))
    ensures Reclaimed(Play(sys, events).db, c) <==> Collectable(sys, events, c)
  {
    var d := Play(sys, events).db;
    assert forall n: NodeId :: RowFate(sys, events, Loc(c, n));
    ReclaimedRows(d, c);
  }

  lemma ReclaimedRows(db: Db, c: ChunkId)
    requires Inv(db)
    ensures Reclaimed(db, c) <==> forall n: NodeId :: Loc(c, n) !in db.replicas && Loc(c, n) !in db.deletions
    ensures forall n: NodeId :: Loc(c, n) in db.replicas && db.replicas[Loc(c, n)] == Deleting ==>
      Loc(c, n) in db.deletions
  {
    assert forall l: Loc | l.chunk == c :: l == Loc(c, l.node);
  }
}
