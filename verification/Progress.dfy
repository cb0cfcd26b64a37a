/** Repair makes progress under any interleaving: missing copies never multiply, and each repair restores one. */
module Progress {
  import opened Tables
  import opened Transactions
  import opened Invariants
  import opened Workers
  import opened Effects
  import opened Durability
  import opened Sums
  import Orders

  /** How many copies the chunk lacks. */
  function Lacking(replicas: map<Loc, ReplicaState>, rf: nat): ChunkId -> nat {
    (c: ChunkId) => rf - Orders.Min(rf, |AvailableNodes(replicas, c)|)
  }

  /** How many copies these chunks lack together. */
  ghost function Shortfall(sys: System, cs: set<ChunkId>, rf: nat): nat {
    Sum(cs, Lacking(sys.db.replicas, rf))
  }

  /** A worker within its lease delivers a copy of the chunk. */
  ghost predicate Delivers(sys: System, e: Event, c: ChunkId) {
    && e.FinishRepair? && Holding(sys, e.w) && sys.repairs[e.w].job.chunk == c
    && e.dest !in sys.repairs[e.w].occupied && e.dest in sys.db.nodes && c in sys.db.chunks
  }

  /** A returned node's copy of the chunk is verified. */
  ghost predicate Promotes(sys: System, e: Event, c: ChunkId) {
    && e.Store? && e.s.OnReplicas? && e.s.r.DoPromote? && e.s.r.l.chunk == c
    && e.s.r.l in sys.db.replicas && sys.db.replicas[e.s.r.l] == Stale
  }

  /** A chunk that lacks a copy gets one. */
  ghost predicate Restores(sys: System, e: Event, c: ChunkId, rf: nat) {
    |AvailableNodes(sys.db.replicas, c)| < rf && (Delivers(sys, e, c) || Promotes(sys, e, c))
  }

  // --------------------------------------------------------------------- one event

  predicate NobodyDies(e: Event) {
    e.Store? ==> DeclaredDead(e.s) == {}
  }

  /** The event leaves the chunk in peace, and the chunk is wanted before and after it. */
  ghost predicate Peaceful(sys: System, e: Event, c: ChunkId, rf: nat) {
    && NobodyDies(e) && Calm(sys, e, c, Orders.Min(rf, |AvailableNodes(sys.db.replicas, c)|))
    && Standing(React(sys, e).db, c)
  }

  /** Which nodes were lost does not matter to what happens next. */
  lemma LostIsHistory(sys: System, e: Event)
    requires NobodyDies(e)
    ensures React(sys.(lost := {}), e) == React(sys, e).(lost := {})
  {
    if !e.Store? {
      WorkersForget(sys, e);
    }
  }

  lemma WorkersForget(sys: System, e: Event)
    requires !e.Store?
    ensures React(sys.(lost := {}), e) == React(sys, e).(lost := {})
  {
  }

  lemma LostIsNoGuard(sys: System, c: ChunkId)
    ensures LeaseInv(sys) <==> LeaseInv(sys.(lost := {}))
    ensures Guarded(sys, c) <==> Guarded(sys.(lost := {}), c)
  {
    var s := sys.(lost := {});
    assert forall w :: Holding(sys, w) <==> Holding(s, w);
    assert forall g :: Sweeps(sys, g) <==> Sweeps(s, g);
  }

  lemma CalmForgets(sys: System, e: Event, c: ChunkId, m: nat)
    requires Calm(sys, e, c, m)
    ensures Calm(sys.(lost := {}), e, c, m)
  {
  }

  /** No event takes a chunk below the copies it had, or below `rf` if it had more. */
  lemma CopiesStay(sys: System, e: Event, c: ChunkId, rf: nat)
    requires Inv(sys.db) && LeaseInv(sys) && Guarded(sys, c) && Peaceful(sys, e, c, rf)
    ensures Guarded(React(sys, e), c)
    ensures |AvailableNodes(React(sys, e).db.replicas, c)| >= Orders.Min(rf, |AvailableNodes(sys.db.replicas, c)|)
  {
    var m, s := Orders.Min(rf, |AvailableNodes(sys.db.replicas, c)|), sys.(lost := {});
    LostIsNoGuard(sys, c);
    LostIsHistory(sys, e);
    CalmForgets(sys, e, c, m);
    NothingLost(s, c);
    ReactSafe(s, e, c, m);
    NothingLost(React(s, e), c);
    LostIsNoGuard(React(sys, e), c);
  }

  /** A delivery and a promotion each add exactly one copy. */
  lemma OneCopyMore(sys: System, e: Event, c: ChunkId)
    requires Guarded(sys, c) && (Delivers(sys, e, c) || Promotes(sys, e, c))
    ensures |AvailableNodes(React(sys, e).db.replicas, c)| == |AvailableNodes(sys.db.replicas, c)| + 1
  {
    if Delivers(sys, e, c) {
      RepairAdds(sys.db, sys.repairs[e.w].job, e.dest);
    } else {
      PromotionAdds(sys.db, e.s.r.l);
    }
  }

  lemma PromotedNodes(db: Db, l: Loc)
    ensures AvailableNodes(SetReplica(db, l, Available).replicas, l.chunk) ==
      AvailableNodes(db.replicas, l.chunk) + {l.node}
  {
    var here, after :=
      AvailableNodes(db.replicas, l.chunk), AvailableNodes(SetReplica(db, l, Available).replicas, l.chunk);
    assert SetReplica(db, l, Available).replicas == (db.replicas - {}) + map[l := Available];
    assert forall n: NodeId :: Loc(l.chunk, n) == l <==> n == l.node;
    assert forall n :: n in after <==> n in here + {l.node};
  }

  lemma PromotionAdds(db: Db, l: Loc)
    requires l in db.replicas && db.replicas[l] == Stale
    ensures |AvailableNodes(PromoteVerified(db, l).replicas, l.chunk)| == |AvailableNodes(db.replicas, l.chunk)| + 1
  {
    PromotedNodes(db, l);
    assert l == Loc(l.chunk, l.node);
    assert l.node !in AvailableNodes(db.replicas, l.chunk);
  }

  lemma LackingStep(sys: System, e: Event, c: ChunkId, rf: nat)
    requires Inv(sys.db) && LeaseInv(sys) && Guarded(sys, c) && Peaceful(sys, e, c, rf)
    ensures Guarded(React(sys, e), c)
    ensures Lacking(React(sys, e).db.replicas, rf)(c) + (if Restores(sys, e, c, rf) then 1 else 0) <=
      Lacking(sys.db.replicas, rf)(c)
  {
    CopiesStay(sys, e, c, rf);
    if Restores(sys, e, c, rf) {
      OneCopyMore(sys, e, c);
    }
  }

  // -------------------------------------------------------------------- whole runs

  lemma {:induction false} SumAtMost<T>(s: set<T>, f: T -> nat, g: T -> nat)
    requires forall x | x in s :: f(x) <= g(x)
    ensures Sum(s, f) <= Sum(s, g)
    decreases |s|
  {
    if s != {} {
      var x :| x in s;
      SumSplit(s, f, x);
      SumSplit(s, g, x);
      SumAtMost(s - {x}, f, g);
    }
  }

  lemma SumBelow<T>(s: set<T>, f: T -> nat, g: T -> nat, x: T)
    requires x in s && f(x) + 1 <= g(x) && forall y | y in s :: f(y) <= g(y)
    ensures Sum(s, f) + 1 <= Sum(s, g)
  {
    SumSplit(s, f, x);
    SumSplit(s, g, x);
    SumAtMost(s - {x}, f, g);
  }

  ghost predicate RestoresOne(sys: System, e: Event, cs: set<ChunkId>, rf: nat) {
    exists c | c in cs :: Restores(sys, e, c, rf)
  }

  ghost predicate PeacefulRun(sys: System, events: seq<Event>, cs: set<ChunkId>, rf: nat)
    decreases |events|
  {
    events != [] ==>
      && PeacefulRun(sys, events[..|events| - 1], cs, rf)
      && forall c | c in cs :: Peaceful(Play(sys, events[..|events| - 1]), events[|events| - 1], c, rf)
  }

  /** How many deliveries and promotions restored a missing copy of one of these chunks. */
  ghost function Restorations(sys: System, events: seq<Event>, cs: set<ChunkId>, rf: nat): nat
    decreases |events|
  {
    if events == [] then 0
    else
      var past := events[..|events| - 1];
      Restorations(sys, past, cs, rf) + if RestoresOne(Play(sys, past), events[|events| - 1], cs, rf) then 1 else 0
  }

  lemma ShortfallStep(sys: System, e: Event, cs: set<ChunkId>, rf: nat)
    requires Inv(sys.db) && LeaseInv(sys) && forall c | c in cs :: Guarded(sys, c) && Peaceful(sys, e, c, rf)
    ensures forall c | c in cs :: Guarded(React(sys, e), c)
    ensures Shortfall(React(sys, e), cs, rf) + (if RestoresOne(sys, e, cs, rf) then 1 else 0) <= Shortfall(sys, cs, rf)
  {
    forall c | c in cs
      ensures Guarded(React(sys, e), c) && Spends(sys, e, React(sys, e), c, rf)
    {
      LackingStep(sys, e, c, rf);
    }
    ShortfallSpent(sys, e, React(sys, e), cs, rf);
  }

  /** The chunk lacks no more than before, and one copy less if the event restored it. */
  ghost predicate Spends(sys: System, e: Event, next: System, c: ChunkId, rf: nat) {
    Lacking(next.db.replicas, rf)(c) + (if Restores(sys, e, c, rf) then 1 else 0) <= Lacking(sys.db.replicas, rf)(c)
  }

  lemma ShortfallSpent(sys: System, e: Event, next: System, cs: set<ChunkId>, rf: nat)
    requires forall c | c in cs :: Spends(sys, e, next, c, rf)
    ensures Shortfall(next, cs, rf) + (if RestoresOne(sys, e, cs, rf) then 1 else 0) <= Shortfall(sys, cs, rf)
  {
    var f, g := Lacking(next.db.replicas, rf), Lacking(sys.db.replicas, rf);
    assert forall c | c in cs :: Spends(sys, e, next, c, rf) && f(c) <= g(c);
    if RestoresOne(sys, e, cs, rf) {
      var c :| c in cs && Restores(sys, e, c, rf);
      SumBelow(cs, f, g, c);
    } else {
      SumAtMost(cs, f, g);
    }
  }

  /** How many missing copies the run brought back, by deliveries, promotions or commits. */
  ghost function Regained(sys: System, events: seq<Event>, cs: set<ChunkId>, rf: nat): nat
    decreases |events|
  {
    if events == [] then 0
    else
      var past := events[..|events| - 1];
      var before, after := Shortfall(Play(sys, past), cs, rf), Shortfall(Play(sys, events), cs, rf);
      Regained(sys, past, cs, rf) + if after <= before then before - after else 0
  }

  /**
   Progress: over any peaceful run without deaths, with any number of workers, crashes, scans, trims and
   collections interleaved, no copy is lost again: the copies lacking at the end and those regained are together
   exactly the copies lacking at the start, and each delivery or promotion to a chunk that lacks a copy regains one.
   */
  lemma {:induction false} ShortfallShrinks(sys: System, events: seq<Event>, cs: set<ChunkId>, rf: nat)
    requires Inv(sys.db) && LeaseInv(sys) && PeacefulRun(sys, events, cs, rf) && forall c | c in cs :: Guarded(sys, c)
    ensures Shortfall(Play(sys, events), cs, rf) + Regained(sys, events, cs, rf) == Shortfall(sys, cs, rf)
    ensures Restorations(sys, events, cs, rf) <= Regained(sys, events, cs, rf)
    ensures forall c | c in cs :: Guarded(Play(sys, events), c)
    decreases |events|
  {
    if events != [] {
      var past := events[..|events| - 1];
      ShortfallShrinks(sys, past, cs, rf);
      PlayInv(sys, past);
      ShortfallStep(Play(sys, past), events[|events| - 1], cs, rf);
    }
  }

  lemma {:induction false} ZeroSum<T>(s: set<T>, f: T -> nat)
    ensures Sum(s, f) == 0 <==> forall x | x in s :: f(x) == 0
    decreases |s|
  {
    if s != {} {
      var x :| x in s;
      SumSplit(s, f, x);
      ZeroSum(s - {x}, f);
      assert s == s - {x} + {x};
    }
  }

  /** So every one of the chunks has its `rf` copies if and only if as many were regained as were lacking. */
  lemma FullyRestored(sys: System, events: seq<Event>, cs: set<ChunkId>, rf: nat)
    requires Inv(sys.db) && LeaseInv(sys) && PeacefulRun(sys, events, cs, rf) && forall c | c in cs :: Guarded(sys, c)
    ensures (forall c | c in cs :: |AvailableNodes(Play(sys, events).db.replicas, c)| >= rf) <==>
            Regained(sys, events, cs, rf) >= Shortfall(sys, cs, rf)
  {
    ShortfallShrinks(sys, events, cs, rf);
    NothingLacking(Play(sys, events), cs, rf);
  }

  lemma NothingLacking(sys: System, cs: set<ChunkId>, rf: nat)
    ensures Shortfall(sys, cs, rf) == 0 <==> forall c | c in cs :: |AvailableNodes(sys.db.replicas, c)| >= rf
  {
    var f := Lacking(sys.db.replicas, rf);
    ZeroSum(cs, f);
    assert forall c :: f(c) == 0 <==> |AvailableNodes(sys.db.replicas, c)| >= rf;
  }
}
