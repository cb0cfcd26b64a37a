/** Removing surplus replicas by rank, whatever the durability counter claims. */
module Trim {
  import opened Tables
  import opened Transactions
  import opened Orders

  /** Less used, or as much used and a lower id; a node the table does not know counts as unused. */
  ghost predicate Precedes(nodes: map<NodeId, NodeRow>, a: NodeId, b: NodeId) {
    var used := (n: NodeId) => if n in nodes then nodes[n].used else 0;
    used(a) < used(b) || (used(a) == used(b) && a < b)
  }

  /** The nodes that fewer than `r` of `s` precede: the `r` emptiest. */
  ghost function Emptiest(nodes: map<NodeId, NodeRow>, s: set<NodeId>, r: nat): set<NodeId> {
    set n | n in s && |set y | y in s && Precedes(nodes, y, n)| < r
  }

  lemma TopIsEmptiest(nodes: map<NodeId, NodeRow>, s: set<NodeId>, r: nat)
    ensures Top(Emptier(nodes), s, r) == Emptiest(nodes, s, r)
    ensures forall a, b :: Emptier(nodes)(a, b) <==> Precedes(nodes, a, b)
  {
    forall n | n in s ensures Before(Emptier(nodes), s, n) == set y | y in s && Precedes(nodes, y, n) {
    }
  }

  lemma EmptierTotal(nodes: map<NodeId, NodeRow>, s: set<NodeId>)
    ensures StrictTotal(Emptier(nodes), s)
  {
  }

  /** Demotion row by row: victims become DELETING, and exactly the DELETING rows gain jobs. */
  lemma DemoteRows(db: Db, c: ChunkId, victims: set<NodeId>)
    requires victims <= AvailableNodes(db.replicas, c)
    ensures var d := Demote(db, c, victims);
      && d.replicas.Keys == db.replicas.Keys
      && (forall l | l in db.replicas ::
            d.replicas[l] == if l.chunk == c && l.node in victims then Deleting else db.replicas[l])
      && (forall l :: l in d.deletions <==>
            l in db.deletions || (l.chunk == c && l in d.replicas && d.replicas[l] == Deleting))
  {
    var d := Demote(db, c, victims);
    assert forall l | l in RowsOn(c, victims, Deleting) :: l in db.replicas;
    assert d.replicas.Keys == db.replicas.Keys;
  }

  lemma DemoteAvailable(db: Db, c: ChunkId, victims: set<NodeId>)
    requires victims <= AvailableNodes(db.replicas, c)
    ensures AvailableNodes(Demote(db, c, victims).replicas, c) == AvailableNodes(db.replicas, c) - victims
  {
    DemoteRows(db, c, victims);
  }

  lemma RankedSize(nodes: map<NodeId, NodeRow>, s: set<NodeId>, r: nat)
    ensures |Top(Emptier(nodes), s, r)| == Min(|s|, r)
    ensures |s| <= r ==> Top(Emptier(nodes), s, r) == s
  {
    EmptierTotal(nodes, s);
    TopSize(Emptier(nodes), s, r);
    SubsetSize(Top(Emptier(nodes), s, r), s);
  }

  /** Demoting everything beyond the first `keep` ranks leaves exactly those ranks. */
  lemma DemoteBeyond(db: Db, c: ChunkId, keep: nat)
    ensures var here := AvailableNodes(db.replicas, c);
      var top := Top(Emptier(db.nodes), here, keep);
      && AvailableNodes(Demote(db, c, here - top).replicas, c) == top
      && |top| == Min(|here|, keep) && (|here| <= keep ==> top == here)
  {
    var here := AvailableNodes(db.replicas, c);
    var top := Top(Emptier(db.nodes), here, keep);
    DemoteAvailable(db, c, here - top);
    assert here - (here - top) == top;
    RankedSize(db.nodes, here, keep);
  }

  /** The AVAILABLE replicas a trim leaves: all of them, or the first `rf` by rank. */
  lemma TrimLeaves(db: Db, c: ChunkId, rf: nat)
    ensures var d, here := TrimChunk(db, c, rf), AvailableNodes(db.replicas, c);
      && AvailableNodes(d.replicas, c) <= here
      && |AvailableNodes(d.replicas, c)| >= Min(|here|, rf)
      && (|here| <= rf ==> AvailableNodes(d.replicas, c) == here)
      && (c in db.chunks && c in db.available && db.available[c] > rf ==>
            AvailableNodes(d.replicas, c) == Top(Emptier(db.nodes), here, rf) == Emptiest(db.nodes, here, rf))
      && (!(c in db.chunks && c in db.available && db.available[c] > rf) ==> d == db)
  {
    DemoteBeyond(db, c, rf);
    TopIsEmptiest(db.nodes, AvailableNodes(db.replicas, c), rf);
  }

  /**
   Trim is safe under any counter drift: it leaves at least min(AVAILABLE, rf) replicas;
   whatever goes lives on a fuller node than whatever stays; and each replica it demotes
   has a deletion job.
   */
  lemma TrimSafe(db: Db, c: ChunkId, rf: nat, claimed: int)
    ensures var drifted := db.(available := db.available[c := claimed]);
      var d := TrimChunk(drifted, c, rf);
      var before, after := AvailableNodes(db.replicas, c), AvailableNodes(d.replicas, c);
      && |after| >= Min(|before|, rf)
      && (forall x, y | x in after && y in before - after :: Precedes(db.nodes, x, y))
      && (if c in db.chunks && claimed > rf then |after| == Min(|before|, rf) else d == drifted)
      && (forall y | y in before - after ::
            Loc(c, y) in d.replicas && d.replicas[Loc(c, y)] == Deleting && Loc(c, y) in d.deletions)
  {
    var drifted := db.(available := db.available[c := claimed]);
    var here := AvailableNodes(db.replicas, c);
    TrimLeaves(drifted, c, rf);
    TopIsEmptiest(db.nodes, here, rf);
    RankedSize(db.nodes, here, rf);
    EmptierTotal(db.nodes, here);
    if c in db.chunks && claimed > rf {
      DemoteRows(drifted, c, Surplus(drifted, c, rf));
      forall x, y | x in Top(Emptier(db.nodes), here, rf) && y in here - Top(Emptier(db.nodes), here, rf)
        ensures Emptier(db.nodes)(x, y)
      {
        TopPrecedes(Emptier(db.nodes), here, rf, x, y);
      }
    }
  }

  /** With an exact counter a trim leaves exactly min(AVAILABLE, rf) replicas. */
  lemma TrimExact(db: Db, c: ChunkId, rf: nat)
    requires c in db.chunks && c in db.available && db.available[c] == |AvailableNodes(db.replicas, c)|
    ensures |AvailableNodes(TrimChunk(db, c, rf).replicas, c)| == Min(|AvailableNodes(db.replicas, c)|, rf)
  {
    TrimLeaves(db, c, rf);
    RankedSize(db.nodes, AvailableNodes(db.replicas, c), rf);
  }

  // ------------------------------------------------------- the rejected variant

  /** How many of the AVAILABLE rows stay when the counter decides how many are too many. */
  function CountKept(here: nat, counter: int, rf: nat): nat {
    if counter <= rf then here else here - Min(counter - rf, here)
  }

  /** As many of the fullest AVAILABLE rows go as the counter says are too many. */
  function CountTrim(db: Db, c: ChunkId, rf: nat): Db {
    if c !in db.chunks || c !in db.available || db.available[c] <= rf then db
    else
      var here := AvailableNodes(db.replicas, c);
      Demote(db, c, here - Top(Emptier(db.nodes), here, CountKept(|here|, db.available[c], rf)))
  }

  /** The count-based form leaves one replica fewer for every unit the counter reads high. */
  lemma CountTrimLeaves(db: Db, c: ChunkId, rf: nat)
    requires c in db.chunks && c in db.available && db.available[c] > rf
    ensures |AvailableNodes(CountTrim(db, c, rf).replicas, c)| ==
      CountKept(|AvailableNodes(db.replicas, c)|, db.available[c], rf)
  {
    DemoteBeyond(db, c, CountKept(|AvailableNodes(db.replicas, c)|, db.available[c], rf));
  }

  /** The count-based form is safe exactly when the counter does not read high. */
  lemma CountTrimSafeIff(db: Db, c: ChunkId, rf: nat)
    requires c in db.chunks && c in db.available && db.available[c] > rf && AvailableNodes(db.replicas, c) != {}
    requires rf > 0
    ensures |AvailableNodes(CountTrim(db, c, rf).replicas, c)| >= Min(|AvailableNodes(db.replicas, c)|, rf)
            <==> db.available[c] <= |AvailableNodes(db.replicas, c)|
  {
    CountTrimLeaves(db, c, rf);
  }

  /** A chunk with one copy and a counter reading two too many. */
  function Drifted(): Db {
    Empty.(nodes := map[1 := NodeRow(Healthy, 0)],
           chunks := map[7 := ChunkRow(ObjectOwner(1), 0, 10, "", Committed)],
           replicas := map[Loc(7, 1) := Available],
           available := map[7 := 3])
  }

  /** Data loss under the count-based form, where trimming by rank removes nothing. */
  lemma CountTrimLosesData()
    ensures AvailableNodes(Drifted().replicas, 7) == {1}
    ensures AvailableNodes(CountTrim(Drifted(), 7, 2).replicas, 7) == {}
    ensures AvailableNodes(TrimChunk(Drifted(), 7, 2).replicas, 7) == {1}
  {
    var db := Drifted();
    assert AvailableNodes(db.replicas, 7) == {1} by {
      assert db.replicas[Loc(7, 1)] == Available;
    }
    CountTrimLeaves(db, 7, 2);
    TrimLeaves(db, 7, 2);
  }

  // --------------------------------------------------------- trimming and node health

  predicate OnLiveNode(db: Db, n: NodeId) {
    n in db.nodes && db.nodes[n].health != Dead
  }

  /**
   Ranks look at used bytes only, so a trim keeps a readable copy exactly when one of the `rf`
   emptiest holders is not DEAD.
   */
  lemma TrimReadableIff(db: Db, c: ChunkId, rf: nat)
    requires c in db.chunks && c in db.available && db.available[c] == |AvailableNodes(db.replicas, c)| > rf
    ensures (exists n :: Readable(TrimChunk(db, c, rf), Loc(c, n))) <==>
            (exists n :: n in Emptiest(db.nodes, AvailableNodes(db.replicas, c), rf) && OnLiveNode(db, n))
  {
    var d := TrimChunk(db, c, rf);
    var top := Top(Emptier(db.nodes), AvailableNodes(db.replicas, c), rf);
    TrimLeaves(db, c, rf);
    assert d.nodes == db.nodes;
    if n :| n in top && OnLiveNode(db, n) {
      assert n in AvailableNodes(d.replicas, c) && Readable(d, Loc(c, n));
    }
    if n :| Readable(d, Loc(c, n)) {
      assert n in AvailableNodes(d.replicas, c) && n in top && OnLiveNode(db, n);
    }
  }
}
