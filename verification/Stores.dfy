/**
 The store's multi-statement transactions as the code runs them: statement by statement on a
 working copy that is kept on success and dropped on error, proved equal to the atomic steps.
 */
module Stores {
  import opened Tables
  import opened Transactions
  import opened Orders
  import opened Trim
  import Reference
  import Refinement
  import Writing

  lemma RecountTwice(available: map<ChunkId, int>, r: map<Loc, ReplicaState>, s: map<Loc, ReplicaState>,
                     touched: set<ChunkId>, c: ChunkId)
    requires touched <= {c}
    ensures Recount(Recount(available, r, touched), s, {c}) == Recount(available, s, {c})
  {
  }

  lemma TouchedOne(replicas: map<Loc, ReplicaState>, rows: map<Loc, ReplicaState>, c: ChunkId)
    requires forall k | k in rows :: k.chunk == c
    ensures Touched(replicas, rows, {}) == if rows == map[] then {} else {c}
  {
    if rows != map[] {
      var k :| k in rows;
      assert k.chunk in Touched(replicas, rows, {});
    }
  }

  lemma RowsOneMore(replicas: map<Loc, ReplicaState>, rows: map<Loc, ReplicaState>, l: Loc, s: ReplicaState)
    ensures ((replicas - {}) + rows - {}) + map[l := s] == (replicas - {}) + rows[l := s]
  {
  }

  /** Writing one more row of a chunk after some of its rows is one write of all of them. */
  lemma WriteOneMore(db: Db, rows: map<Loc, ReplicaState>, l: Loc, s: ReplicaState)
    requires forall k | k in rows :: k.chunk == l.chunk
    ensures SetReplica(WriteReplicas(db, rows, {}), l, s) == WriteReplicas(db, rows[l := s], {})
  {
    var first := (db.replicas - {}) + rows;
    RowsOneMore(db.replicas, rows, l, s);
    assert l in rows[l := s] && l in map[l := s];
    TouchedOne(db.replicas, rows, l.chunk);
    TouchedOne(db.replicas, rows[l := s], l.chunk);
    TouchedOne(first, map[l := s], l.chunk);
    RecountTwice(db.available, first, (first - {}) + map[l := s], Touched(db.replicas, rows, {}), l.chunk);
  }

  lemma WriteNothing(db: Db)
    ensures WriteReplicas(db, map[], {}) == db
  {
    var d := WriteReplicas(db, map[], {});
    assert d.replicas == db.replicas && d.available == db.available;
  }

  lemma RowsOnMore(c: ChunkId, ns: set<NodeId>, n: NodeId, s: ReplicaState)
    ensures RowsOn(c, ns + {n}, s) == RowsOn(c, ns, s)[Loc(c, n) := s]
  {
  }

  lemma FailedRowsMore(db: Db, c: ChunkId, ns: set<NodeId>, n: NodeId)
    ensures FailedRows(db, c, ns + {n}) ==
      if Loc(c, n) in db.replicas then FailedRows(db, c, ns)[Loc(c, n) := Unavailable] else FailedRows(db, c, ns)
  {
  }

  lemma FailOneMore(db: Db, c: ChunkId, ns: set<NodeId>, n: NodeId)
    ensures var tx := WriteReplicas(db, FailedRows(db, c, ns), {});
      WriteReplicas(db, FailedRows(db, c, ns + {n}), {}) ==
        if Loc(c, n) in tx.replicas then SetReplica(tx, Loc(c, n), Unavailable) else tx
  {
    var tx := WriteReplicas(db, FailedRows(db, c, ns), {});
    FailedRowsMore(db, c, ns, n);
    WriteOneMore(db, FailedRows(db, c, ns), Loc(c, n), Unavailable);
    assert Loc(c, n) in tx.replicas <==> Loc(c, n) in db.replicas;
  }

  lemma ElementsMore<T>(l: seq<T>, i: nat)
    requires i < |l|
    ensures Elements(l[..i + 1]) == Elements(l[..i]) + {l[i]}
  {
    assert l[..i + 1] == l[..i] + [l[i]];
  }

  /** The rows of the first `i` failed nodes are written. */
  ghost predicate Failing(db: Db, c: ChunkId, failed: seq<NodeId>, i: nat, tx: Db) {
    i <= |failed| && tx == WriteReplicas(db, FailedRows(db, c, Elements(failed[..i])), {})
  }

  lemma FailStart(db: Db, c: ChunkId, failed: seq<NodeId>)
    ensures Failing(db, c, failed, 0, db)
  {
    assert FailedRows(db, c, Elements(failed[..0])) == map[];
    WriteNothing(db);
  }

  lemma FailNext(db: Db, c: ChunkId, failed: seq<NodeId>, i: nat, tx: Db)
    requires i < |failed| && Failing(db, c, failed, i, tx)
    ensures var l := Loc(c, failed[i]);
      Failing(db, c, failed, i + 1, if l in tx.replicas then SetReplica(tx, l, Unavailable) else tx)
  {
    ElementsMore(failed, i);
    FailOneMore(db, c, Elements(failed[..i]), failed[i]);
  }

  lemma FailDone(db: Db, c: ChunkId, failed: seq<NodeId>, tx: Db)
    requires Failing(db, c, failed, |failed|, tx)
    ensures tx == WriteReplicas(db, FailedRows(db, c, Elements(failed)), {})
  {
    assert failed[..|failed|] == failed;
  }

  class Store {
    var db: Db

    /** One WRITING row per placement target, or none at all. */
    method RecordChunkTargets(c: ChunkId, targets: seq<NodeId>) returns (ok: bool)
      modifies this
      ensures db == RecordTargets(old(db), c, Elements(targets))
      ensures ok <==> targets == [] || (c in old(db).chunks && Elements(targets) <= old(db).nodes.Keys)
    {
      var tx, i := db, 0;
      assert RowsOn(c, Elements(targets[..0]), Writing) == map[];
      WriteNothing(db);
      while i < |targets|
        invariant 0 <= i <= |targets| && db == old(db)
        invariant tx == WriteReplicas(db, RowsOn(c, Elements(targets[..i]), Writing), {})
        invariant Elements(targets[..i]) <= db.nodes.Keys && (i > 0 ==> c in db.chunks)
      {
        ElementsMore(targets, i);
        if c !in tx.chunks || targets[i] !in tx.nodes {
          assert targets[i] in Elements(targets);
          return false;
        }
        RowsOnMore(c, Elements(targets[..i]), targets[i], Writing);
        WriteOneMore(db, RowsOn(c, Elements(targets[..i]), Writing), Loc(c, targets[i]), Writing);
        tx := SetReplica(tx, Loc(c, targets[i]), Writing);
        i := i + 1;
      }
      assert targets[..i] == targets;
      db := tx;
      return true;
    }

    /**
     Failed replicas first, then acknowledged ones, then the durability check: below `min`
     AVAILABLE replicas the whole transaction is rolled back.
     */
    method CommitChunk(c: ChunkId, sum: string, size: nat, succeeded: seq<NodeId>, failed: seq<NodeId>, min: nat)
        returns (ok: bool, available: nat)
      modifies this
      ensures db == Transactions.CommitChunk(old(db), c, sum, size, Elements(succeeded), Elements(failed), min)
      ensures Writing.Committing(old(db), db, c, sum, size, Elements(succeeded), Elements(failed), min)
      ensures ok <==> Reference.Commits(old(db), c, sum, Elements(succeeded), Elements(failed), min)
      ensures ok ==> available == |AvailableNodes(db.replicas, c)| >= min
    {
      Writing.CommitExact(db, c, sum, size, Elements(succeeded), Elements(failed), min);
      Refinement.CommitMeans(db, c, sum, Elements(succeeded), Elements(failed), min);
      available := 0;
      if c !in db.chunks {
        return false, 0;
      }
      var noted := MarkFailed(c, failed);
      var tx, i := noted, 0;
      assert RowsOn(c, Elements(succeeded[..0]), Available) == map[];
      WriteNothing(noted);
      while i < |succeeded|
        invariant 0 <= i <= |succeeded| && db == old(db)
        invariant tx == WriteReplicas(noted, RowsOn(c, Elements(succeeded[..i]), Available), {})
        invariant Elements(succeeded[..i]) <= db.nodes.Keys
      {
        ElementsMore(succeeded, i);
        if succeeded[i] !in tx.nodes {
          assert succeeded[i] in Elements(succeeded);
          return false, 0;
        }
        RowsOnMore(c, Elements(succeeded[..i]), succeeded[i], Available);
        WriteOneMore(noted, RowsOn(c, Elements(succeeded[..i]), Available), Loc(c, succeeded[i]), Available);
        tx := SetReplica(tx, Loc(c, succeeded[i]), Available);
        i := i + 1;
      }
      assert succeeded[..i] == succeeded;
      assert tx == CommitRows(db, c, Elements(succeeded), Elements(failed));
      available := |AvailableNodes(tx.replicas, c)|;
      if available < min || !IsHexDigest(sum) {
        return false, available;
      }
      db := tx.(chunks := tx.chunks[c := tx.chunks[c].(checksum := sum, size := size, state := Committed)]);
      return true, available;
    }

    /** The first loop of a commit: rows that exist for failed nodes become UNAVAILABLE. */
    method MarkFailed(c: ChunkId, failed: seq<NodeId>) returns (tx: Db)
      ensures tx == WriteReplicas(db, FailedRows(db, c, Elements(failed)), {})
    {
      tx := db;
      FailStart(db, c, failed);
      var i := 0;
      while i < |failed|
        invariant Failing(db, c, failed, i, tx)
      {
        FailNext(db, c, failed, i, tx);
        if Loc(c, failed[i]) in tx.replicas {
          tx := SetReplica(tx, Loc(c, failed[i]), Unavailable);
        }
        i := i + 1;
      }
      FailDone(db, c, failed, tx);
    }

    /** Trims the listed chunks one transaction at a time and counts the replicas demoted. */
    method TrimOverReplicated(ids: seq<ChunkId>, rf: nat) returns (trimmed: nat)
      modifies this
      ensures trimmed == |Demoted(old(db), db)| && db.replicas.Keys == old(db).replicas.Keys
      ensures forall c: ChunkId :: |AvailableNodes(db.replicas, c)| >= Min(|AvailableNodes(old(db).replicas, c)|, rf)
      ensures forall l | l in Demoted(old(db), db) :: l in db.deletions
    {
      trimmed := 0;
      assert Demoted(db, db) == {};
      for i := 0 to |ids|
        invariant trimmed == |Demoted(old(db), db)| && db.replicas.Keys == old(db).replicas.Keys
        invariant Trimmed(old(db), db, rf)
      {
        var c := ids[i];
        if c in db.chunks && c in db.available && db.available[c] > rf {
          TrimOne(old(db), db, c, rf);
          trimmed := trimmed + |Surplus(db, c, rf)|;
          db := TrimChunk(db, c, rf);
        }
      }
    }

    /** Leases a due job, in the transaction that also loads what its worker needs. */
    method ClaimRepairJob(j: JobId, lease: nat, rf: nat, rows: seq<NodeId>) returns (claimed: bool, t: Target)
      requires Rows(rows, RowNodes(db.replicas, j.chunk))
      modifies this
      ensures db == ClaimRepair(old(db), j, lease) && (claimed <==> Claimable(old(db), j))
      ensures claimed ==> Loaded(db, j.chunk, rf, rows, t)
    {
      if !Claimable(db, j) {
        return false, Target(0, [], [], 0, 0);
      }
      db := ClaimRepair(db, j, lease);
      t := LoadTarget(db, j.chunk, rf, rows);
      return true, t;
    }
  }

  // --------------------------------------------------------------- repair targets

  datatype Target = Target(desired: int, sources: seq<NodeId>, occupied: seq<NodeId>, stale: nat, transient: nat)

  /** A result set: each element once. */
  ghost predicate Rows(l: seq<NodeId>, s: set<NodeId>) {
    Elements(l) == s && forall i, j | 0 <= i < j < |l| :: l[i] != l[j]
  }

  const TRANSIENT := {Writing, Unavailable, Deleting, Corrupt, Stale}

  /** Nodes of `ns` whose row for the chunk is in one of the states. */
  function Picked(replicas: map<Loc, ReplicaState>, c: ChunkId, ns: set<NodeId>,
                  states: set<ReplicaState>): set<NodeId> {
    set n | n in ns && Loc(c, n) in replicas && replicas[Loc(c, n)] in states
  }

  function ReadableOn(db: Db, c: ChunkId, ns: set<NodeId>): set<NodeId> {
    set n | n in ns && Readable(db, Loc(c, n))
  }

  /**
   The worker may copy from exactly the readable replicas, must avoid every node with any row,
   and knows how many rows are STALE and how many are not AVAILABLE.
   */
  ghost predicate Loaded(db: Db, c: ChunkId, rf: nat, rows: seq<NodeId>, t: Target) {
    && t.occupied == rows
    && Elements(t.sources) == ReadableOn(db, c, Elements(rows))
    && t.stale == |Picked(db.replicas, c, Elements(rows), {Stale})|
    && t.transient == |Picked(db.replicas, c, Elements(rows), TRANSIENT)|
    && t.desired == if c in db.available && db.available[c] < rf then rf - db.available[c] else 0
  }

  lemma PickedMore(replicas: map<Loc, ReplicaState>, c: ChunkId, ns: set<NodeId>, n: NodeId, states: set<ReplicaState>)
    requires n !in ns && Loc(c, n) in replicas
    ensures |Picked(replicas, c, ns + {n}, states)| ==
            |Picked(replicas, c, ns, states)| + if replicas[Loc(c, n)] in states then 1 else 0
  {
    if replicas[Loc(c, n)] in states {
      assert Picked(replicas, c, ns + {n}, states) == Picked(replicas, c, ns, states) + {n};
    } else {
      assert Picked(replicas, c, ns + {n}, states) == Picked(replicas, c, ns, states);
    }
  }

  lemma ReadableMore(db: Db, c: ChunkId, ns: set<NodeId>, n: NodeId)
    ensures ReadableOn(db, c, ns + {n}) ==
      if Readable(db, Loc(c, n)) then ReadableOn(db, c, ns) + {n} else ReadableOn(db, c, ns)
  {
  }

  /** What the next result row adds. */
  lemma NextRow(db: Db, c: ChunkId, rows: seq<NodeId>, i: nat)
    requires i < |rows| && Rows(rows, RowNodes(db.replicas, c))
    ensures Loc(c, rows[i]) in db.replicas
    ensures var done, state := Elements(rows[..i]), db.replicas[Loc(c, rows[i])];
      && |Picked(db.replicas, c, done + {rows[i]}, {Stale})| ==
         |Picked(db.replicas, c, done, {Stale})| + (if state == Stale then 1 else 0)
      && |Picked(db.replicas, c, done + {rows[i]}, TRANSIENT)| ==
         |Picked(db.replicas, c, done, TRANSIENT)| + (if state == Available then 0 else 1)
      && ReadableOn(db, c, done + {rows[i]}) ==
         (if Readable(db, Loc(c, rows[i])) then ReadableOn(db, c, done) + {rows[i]} else ReadableOn(db, c, done))
  {
    var n := rows[i];
    assert n in Elements(rows) && n !in Elements(rows[..i]);
    PickedMore(db.replicas, c, Elements(rows[..i]), n, {Stale});
    PickedMore(db.replicas, c, Elements(rows[..i]), n, TRANSIENT);
    ReadableMore(db, c, Elements(rows[..i]), n);
  }

  method LoadTarget(db: Db, c: ChunkId, rf: nat, rows: seq<NodeId>) returns (t: Target)
    requires Rows(rows, RowNodes(db.replicas, c))
    ensures Loaded(db, c, rf, rows, t)
  {
    var desired := if c in db.available then rf - db.available[c] else 0;
    if desired < 0 {
      desired := 0;
    }
    var sources, occupied, stale, transient := [], [], 0, 0;
    for i := 0 to |rows|
      invariant occupied == rows[..i] && Elements(sources) == ReadableOn(db, c, Elements(rows[..i]))
      invariant stale == |Picked(db.replicas, c, Elements(rows[..i]), {Stale})|
      invariant transient == |Picked(db.replicas, c, Elements(rows[..i]), TRANSIENT)|
    {
      var n := rows[i];
      ElementsMore(rows, i);
      NextRow(db, c, rows, i);
      if Readable(db, Loc(c, n)) {
        ElementsSnoc(sources, n);
        sources := sources + [n];
      }
      occupied := occupied + [n];
      match db.replicas[Loc(c, n)] {
        case Stale =>
          stale, transient := stale + 1, transient + 1;
        case Available =>
        case _ =>
          transient := transient + 1;
      }
    }
    assert rows[..|rows|] == rows;
    t := Target(desired, sources, occupied, stale, transient);
  }

  // ---------------------------------------------------------------------- trimming

  /** Rows that were AVAILABLE and are DELETING. */
  function Demoted(before: Db, after: Db): set<Loc> {
    set l | l in before.replicas && l in after.replicas && before.replicas[l] == Available
      && after.replicas[l] == Deleting
  }

  /** Every chunk keeps at least min(before, rf) AVAILABLE replicas. */
  ghost predicate Enough(before: Db, after: Db, rf: nat) {
    forall c: ChunkId :: |AvailableNodes(after.replicas, c)| >= Min(|AvailableNodes(before.replicas, c)|, rf)
  }

  /** Only AVAILABLE rows changed, to DELETING with a job, never leaving fewer than `rf`. */
  ghost predicate Trimmed(before: Db, after: Db, rf: nat) {
    && (forall l | l in before.replicas && l in after.replicas ::
          after.replicas[l] == before.replicas[l] || (before.replicas[l] == Available && after.replicas[l] == Deleting))
    && Enough(before, after, rf)
    && (forall l | l in Demoted(before, after) :: l in after.deletions)
  }

  lemma TrimmedRows(start: Db, db: Db, d: Db, c: ChunkId, victims: set<NodeId>, rf: nat)
    requires Trimmed(start, db, rf) && db.replicas.Keys == start.replicas.Keys == d.replicas.Keys
    requires victims <= AvailableNodes(db.replicas, c)
    requires forall l | l in db.replicas ::
      d.replicas[l] == if l.chunk == c && l.node in victims then Deleting else db.replicas[l]
    ensures |Demoted(start, d)| == |Demoted(start, db)| + |victims|
    ensures Demoted(start, d) == Demoted(start, db) + set n | n in victims :: Loc(c, n)
    ensures forall l | l in start.replicas ::
      d.replicas[l] == start.replicas[l] || (start.replicas[l] == Available && d.replicas[l] == Deleting)
  {
    var fell := set n | n in victims :: Loc(c, n);
    assert forall n | n in victims :: start.replicas[Loc(c, n)] == Available;
    forall l | l in Demoted(start, d) ensures l in Demoted(start, db) + fell {
      if l.chunk == c && l.node in victims {
        assert l == Loc(c, l.node);
      }
    }
    assert Demoted(start, d) == Demoted(start, db) + fell;
    assert Demoted(start, db) !! fell;
    ImageSize(victims, fell, c);
  }

  lemma DemoteElsewhere(db: Db, c: ChunkId, victims: set<NodeId>, k: ChunkId)
    requires victims <= AvailableNodes(db.replicas, c) && k != c
    ensures AvailableNodes(Demote(db, c, victims).replicas, k) == AvailableNodes(db.replicas, k)
  {
    DemoteRows(db, c, victims);
  }

  lemma DemotedQueued(start: Db, db: Db, c: ChunkId, victims: set<NodeId>, rf: nat)
    requires Trimmed(start, db, rf) && victims <= AvailableNodes(db.replicas, c)
    requires Demoted(start, Demote(db, c, victims)) == Demoted(start, db) + set n | n in victims :: Loc(c, n)
    ensures forall l | l in Demoted(start, Demote(db, c, victims)) :: l in Demote(db, c, victims).deletions
  {
    DemoteRows(db, c, victims);
  }

  lemma KeepsEnough(start: Db, db: Db, c: ChunkId, rf: nat, k: ChunkId)
    requires |AvailableNodes(db.replicas, k)| >= Min(|AvailableNodes(start.replicas, k)|, rf)
    requires c in db.chunks && c in db.available && db.available[c] > rf
    ensures |AvailableNodes(Demote(db, c, Surplus(db, c, rf)).replicas, k)| >=
      Min(|AvailableNodes(start.replicas, k)|, rf)
  {
    if k == c {
      DemoteBeyond(db, c, rf);
    } else {
      DemoteElsewhere(db, c, Surplus(db, c, rf), k);
    }
  }

  lemma AllKeepEnough(start: Db, db: Db, c: ChunkId, rf: nat)
    requires Enough(start, db, rf) && c in db.chunks && c in db.available && db.available[c] > rf
    ensures Enough(start, Demote(db, c, Surplus(db, c, rf)), rf)
  {
    forall k: ChunkId
      ensures |AvailableNodes(Demote(db, c, Surplus(db, c, rf)).replicas, k)| >=
        Min(|AvailableNodes(start.replicas, k)|, rf)
    {
      KeepsEnough(start, db, c, rf, k);
    }
  }

  lemma DemoteTrimmed(start: Db, db: Db, c: ChunkId, victims: set<NodeId>, rf: nat)
    requires Trimmed(start, db, rf) && db.replicas.Keys == start.replicas.Keys
    requires victims <= AvailableNodes(db.replicas, c)
    ensures var d := Demote(db, c, victims);
      && d.replicas.Keys == start.replicas.Keys && |Demoted(start, d)| == |Demoted(start, db)| + |victims|
      && (forall l | l in Demoted(start, d) :: l in d.deletions)
      && forall l | l in start.replicas ::
           d.replicas[l] == start.replicas[l] || (start.replicas[l] == Available && d.replicas[l] == Deleting)
  {
    DemoteRows(db, c, victims);
    TrimmedRows(start, db, Demote(db, c, victims), c, victims, rf);
    DemotedQueued(start, db, c, victims, rf);
  }

  lemma TrimOne(start: Db, db: Db, c: ChunkId, rf: nat)
    requires Trimmed(start, db, rf) && db.replicas.Keys == start.replicas.Keys
    requires c in db.chunks && c in db.available && db.available[c] > rf
    ensures var d := TrimChunk(db, c, rf);
      && Trimmed(start, d, rf) && d.replicas.Keys == start.replicas.Keys
      && |Demoted(start, d)| == |Demoted(start, db)| + |Surplus(db, c, rf)|
  {
    assert TrimChunk(db, c, rf) == Demote(db, c, Surplus(db, c, rf));
    AllKeepEnough(start, db, c, rf);
    DemoteTrimmed(start, db, c, Surplus(db, c, rf), rf);
  }

  lemma {:induction false} ImageSize(ns: set<NodeId>, ls: set<Loc>, c: ChunkId)
    requires ls == set n | n in ns :: Loc(c, n)
    ensures |ls| == |ns|
    decreases |ns|
  {
    if ns != {} {
      var n :| n in ns;
      var rest := set m | m in ns - {n} :: Loc(c, m);
      ImageSize(ns - {n}, rest, c);
      assert ls == rest + {Loc(c, n)};
    }
  }
}
