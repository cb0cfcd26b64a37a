/** Reachable states in which the code falls short of what one might expect of it. */
module Witnesses {
  import opened Tables
  import opened Transactions
  import opened Invariants
  import opened Uploads
  import Trim
  import Orders

  /** Some sequence of steps leads from empty tables to this state. */
  ghost predicate Reachable(db: Db) {
    exists steps: seq<Step> :: Run(Empty, steps) == db
  }

  lemma StartReachable()
    ensures Reachable(Empty)
  {
    assert Run(Empty, []) == Empty;
  }

  lemma Reaches(db: Db, s: Step, d: Db)
    requires Reachable(db) && d == Apply(db, s)
    ensures Reachable(d)
  {
    var steps: seq<Step> :| Run(Empty, steps) == db;
    var more := steps + [s];
    assert more[..|more| - 1] == steps;
    assert Run(Empty, more) == d;
  }

  lemma ReachedIsGood(db: Db)
    requires Reachable(db)
    ensures Inv(db)
  {
    var steps: seq<Step> :| Run(Empty, steps) == db;
    ReachableInv(steps);
  }

  // ------------------------------------------------ a trim that keeps the wrong copy

  /** Two nodes, the emptier one still alive, and a chunk being written. */
  lemma TwoNodes() returns (db: Db)
    ensures Reachable(db) && db == Empty.(nodes := map[1 := NodeRow(Healthy, 0), 2 := NodeRow(Healthy, 5)])
  {
    StartReachable();
    var one := RecordNode(Empty, 1, NodeRow(Healthy, 0));
    Reaches(Empty, OnReplicas(DoRecordNode(1, NodeRow(Healthy, 0))), one);
    db := RecordNode(one, 2, NodeRow(Healthy, 5));
    Reaches(one, OnReplicas(DoRecordNode(2, NodeRow(Healthy, 5))), db);
  }

  lemma Begun(db: Db, k: Key) returns (d: Db)
    requires Reachable(db) && 1 !in db.objects
    ensures Reachable(d) && Writable(d, ObjectOwner(1)) && d == db.(objects := d.objects)
  {
    d := BeginUpload(db, 1, k);
    Reaches(db, OnUploads(DoBeginUpload(1, k)), d);
  }

  lemma ReservedNew(db: Db, c: ChunkId) returns (d: Db)
    requires Reachable(db) && c != 0 && c !in db.chunks
    requires Writable(db, ObjectOwner(1)) && AtPosition(db.chunks, ObjectOwner(1), 0) == {}
    ensures Reachable(d) && d.nodes == db.nodes && d.replicas == db.replicas && c in d.chunks
  {
    d := ReserveChunk(db, c, ObjectOwner(1), 0, 10);
    Reaches(db, OnUploads(DoReserve(c, ObjectOwner(1), 0, 10)), d);
  }

  lemma ReservedAgain(db: Db, c: ChunkId) returns (d: Db)
    requires Reachable(db) && c in db.chunks
    ensures Reachable(d) && d.nodes == db.nodes && d.replicas == db.replicas && c in d.chunks
  {
    d := ReserveChunk(db, c, ObjectOwner(1), 0, 10);
    Reaches(db, OnUploads(DoReserve(c, ObjectOwner(1), 0, 10)), d);
    assert d.chunks.Keys >= db.chunks.Keys;
  }

  lemma Targeted(db: Db, c: ChunkId, ns: set<NodeId>) returns (d: Db)
    requires Reachable(db) && c in db.chunks && ns <= db.nodes.Keys
    ensures Reachable(d) && d.nodes == db.nodes && d.chunks == db.chunks
    ensures AvailableNodes(d.replicas, c) == AvailableNodes(db.replicas, c) - ns
  {
    d := RecordTargets(db, c, ns);
    Reaches(db, OnReplicas(DoRecordTargets(c, ns)), d);
    WritingHides(db, c, ns);
  }

  lemma WritingHides(db: Db, c: ChunkId, ns: set<NodeId>)
    ensures AvailableNodes(WriteReplicas(db, RowsOn(c, ns, Writing), {}).replicas, c) ==
      AvailableNodes(db.replicas, c) - ns
  {
  }

  lemma Died(db: Db, n: NodeId, c: ChunkId) returns (d: Db)
    requires Reachable(db) && n in db.nodes
    ensures Reachable(d) && d.nodes == db.nodes[n := db.nodes[n].(health := Dead)] && d.chunks == db.chunks
    ensures AvailableNodes(d.replicas, c) == AvailableNodes(db.replicas, c) - {n}
  {
    d := SetNodeHealth(db, n, Dead);
    Reaches(db, OnReplicas(DoSetNodeHealth(n, Dead)), d);
    DeadRows(db, n, c);
  }

  lemma DeadRows(db: Db, n: NodeId, c: ChunkId)
    requires n in db.nodes
    ensures AvailableNodes(SetNodeHealth(db, n, Dead).replicas, c) == AvailableNodes(db.replicas, c) - {n}
  {
    var rows := Shifted(db, n, {Available, Writing}, Unavailable);
    assert SetNodeHealth(db, n, Dead).replicas == (db.replicas - {}) + rows;
  }

  /** A commit without failures adds exactly the acknowledging nodes, whatever their health. */
  lemma CommitAdds(db: Db, c: ChunkId, ok: set<NodeId>)
    ensures AvailableNodes(CommitRows(db, c, ok, {}).replicas, c) == AvailableNodes(db.replicas, c) + ok
  {
    assert FailedRows(db, c, {}) == map[];
    var noted := WriteReplicas(db, map[], {});
    assert noted.replicas == db.replicas;
    RowsAdd(noted, c, ok);
  }

  lemma RowsAdd(db: Db, c: ChunkId, ok: set<NodeId>)
    ensures AvailableNodes(WriteReplicas(db, RowsOn(c, ok, Available), {}).replicas, c) ==
      AvailableNodes(db.replicas, c) + ok
  {
  }

  lemma CommittedOn(db: Db, c: ChunkId, sum: string, n: NodeId) returns (d: Db)
    requires Reachable(db) && c in db.chunks && n in db.nodes && IsHexDigest(sum)
    ensures Reachable(d) && d.nodes == db.nodes && d.chunks.Keys == db.chunks.Keys
    ensures AvailableNodes(d.replicas, c) == AvailableNodes(db.replicas, c) + {n}
  {
    d := CommitChunk(db, c, sum, 10, {n}, {}, 1);
    Reaches(db, OnUploads(DoCommit(c, sum, 10, {n}, {}, 1)), d);
    CommitAdds(db, c, {n});
    assert n in AvailableNodes(db.replicas, c) + {n};
    Orders.SubsetSize({n}, AvailableNodes(db.replicas, c) + {n});
  }

  lemma ChunkSent(k: Key) returns (db: Db)
    ensures Reachable(db) && 7 in db.chunks && db.nodes == map[1 := NodeRow(Healthy, 0), 2 := NodeRow(Healthy, 5)]
    ensures AvailableNodes(db.replicas, 7) == {}
  {
    db := TwoNodes();
    db := Begun(db, k);
    db := ReservedNew(db, 7);
    db := Targeted(db, 7, {1});
  }

  /** A chunk is sent to the empty node, which is declared DEAD before its acknowledgement is committed. */
  lemma TargetDied(k: Key) returns (db: Db)
    ensures Reachable(db) && 7 in db.chunks && db.nodes == map[1 := NodeRow(Dead, 0), 2 := NodeRow(Healthy, 5)]
    ensures AvailableNodes(db.replicas, 7) == {}
  {
    var sent := ChunkSent(k);
    db := Died(sent, 1, 7);
  }

  /** The late acknowledgement is committed, then the client's retry on the other node. */
  lemma WrittenTwice(db: Db, sum: string) returns (d: Db)
    requires Reachable(db) && 7 in db.chunks && {1, 2} <= db.nodes.Keys && IsHexDigest(sum)
    requires AvailableNodes(db.replicas, 7) == {}
    ensures Reachable(d) && 7 in d.chunks && d.nodes == db.nodes && AvailableNodes(d.replicas, 7) == {1, 2}
  {
    d := CommittedOn(db, 7, sum, 1);
    d := ReservedAgain(d, 7);
    d := Targeted(d, 7, {2});
    d := CommittedOn(d, 7, sum, 2);
  }

  lemma EmptiestIsDead(db: Db)
    requires db.nodes == map[1 := NodeRow(Dead, 0), 2 := NodeRow(Healthy, 5)]
    requires AvailableNodes(db.replicas, 7) == {1, 2}
    ensures forall n | n in Trim.Emptiest(db.nodes, AvailableNodes(db.replicas, 7), 1) :: !Trim.OnLiveNode(db, n)
  {
    Trim.TopIsEmptiest(db.nodes, AvailableNodes(db.replicas, 7), 1);
    assert Orders.Before(Emptier(db.nodes), {1, 2}, 2) == {1};
  }

  /**
   A reachable state in which trimming to one copy keeps the one on the DEAD node and condemns the only
   readable one.
   */
  lemma TrimHidesReadableCopy(k: Key, sum: string) returns (db: Db)
    requires IsHexDigest(sum)
    ensures Reachable(db) && Readable(db, Loc(7, 2)) && !(exists n :: Readable(TrimChunk(db, 7, 1), Loc(7, n)))
  {
    db := TargetDied(k);
    db := WrittenTwice(db, sum);
    TrimChoosesDead(db);
  }

  lemma TrimChoosesDead(db: Db)
    requires Reachable(db) && 7 in db.chunks && db.nodes == map[1 := NodeRow(Dead, 0), 2 := NodeRow(Healthy, 5)]
    requires AvailableNodes(db.replicas, 7) == {1, 2}
    ensures Readable(db, Loc(7, 2)) && !(exists n :: Readable(TrimChunk(db, 7, 1), Loc(7, n)))
  {
    CounterOf(db, 7);
    assert 2 in AvailableNodes(db.replicas, 7);
    EmptiestIsDead(db);
    Trim.TrimReadableIff(db, 7, 1);
  }

  lemma CounterOf(db: Db, c: ChunkId)
    requires Reachable(db) && c in db.chunks
    ensures c in db.available && db.available[c] == |AvailableNodes(db.replicas, c)|
  {
    ReachedIsGood(db);
  }

  // --------------------------------------------------- a requeue that helps nobody

  /** A live chunk with one copy where two are wanted. */
  ghost predicate Needy(db: Db, c: ChunkId) {
    && c in db.chunks && db.chunks[c].state == Committed && db.chunks[c].owner == ObjectOwner(1)
    && Writable(db, ObjectOwner(1)) && AvailableNodes(db.replicas, c) == {2}
  }

  lemma NeedyNeedsRepair(db: Db, c: ChunkId)
    requires Reachable(db) && Needy(db, c)
    ensures NeedsRepair(db, c, 2)
  {
    CounterOf(db, c);
  }

  lemma WroteOne(db: Db, i: nat, w: ChunkWrite) returns (d: Db)
    requires Reachable(db) && Writable(db, ObjectOwner(1)) && AtPosition(db.chunks, ObjectOwner(1), i) == {}
    requires w.id !in db.chunks && w.id != 0 && w.ok == {2} && w.bad == {} && 2 in db.nodes && IsHexDigest(w.sum)
    ensures Reachable(d) && Added(db, d, 1, i, w) && d.jobs == db.jobs
  {
    ReachedIsGood(db);
    NoRowsYet(db, w.id);
    OneWritten(db, 1, i, w, 1);
    d := WriteOne(db, 1, i, w, 1);
    WroteReaches(db, i, w);
    WroteJobs(db, i, w);
  }

  lemma WroteReaches(db: Db, i: nat, w: ChunkWrite)
    requires Reachable(db)
    ensures Reachable(WriteOne(db, 1, i, w, 1))
  {
    var reserved := ReserveChunk(db, w.id, ObjectOwner(1), i, w.size);
    Reaches(db, OnUploads(DoReserve(w.id, ObjectOwner(1), i, w.size)), reserved);
    var recorded := RecordTargets(reserved, w.id, w.ok + w.bad);
    Reaches(reserved, OnReplicas(DoRecordTargets(w.id, w.ok + w.bad)), recorded);
    Reaches(recorded, OnUploads(DoCommit(w.id, w.sum, w.size, w.ok, w.bad, 1)), WriteOne(db, 1, i, w, 1));
  }

  lemma WroteJobs(db: Db, i: nat, w: ChunkWrite)
    ensures WriteOne(db, 1, i, w, 1).jobs == db.jobs
  {
  }

  /** Two live chunks, each short of a copy, and no job yet. */
  lemma TwoNeedy(k: Key, sum: string) returns (db: Db)
    requires IsHexDigest(sum)
    ensures Reachable(db) && Needy(db, 7) && Needy(db, 8) && db.jobs == map[]
  {
    db := TwoNodes();
    db := Begun(db, k);
    db := WroteOne(db, 0, ChunkWrite(7, 10, sum, {2}, {}));
    db := WroteOne(db, 1, ChunkWrite(8, 10, sum, {2}, {}));
  }

  /**
   One failed attempt of a claimed job: it is counted, and the job comes back after the delay until
   its attempts reach the cap. The unique index never blocks this in a reachable state.
   */
  lemma ClaimThenFail(db: Db, j: JobId, lease: nat, backoff: nat, max: nat)
    requires OneJob(db) && Claimable(db, j)
    ensures var tried := db.jobs[j].attempts + 1;
      FailRepair(ClaimRepair(db, j, lease), j, backoff, max) ==
        db.(jobs := db.jobs[j := JobRow(if tried >= max then JobFailed else JobPending, tried, 0, db.now + backoff)])
  {
    var claimed := ClaimRepair(db, j, lease);
    assert forall i | i in claimed.jobs && i != j :: claimed.jobs[i] == db.jobs[i];
    assert !RequeueConflicts(claimed, j);
  }

  lemma OneJobOf(db: Db)
    requires Reachable(db)
    ensures OneJob(db)
  {
    ReachedIsGood(db);
  }

  lemma TriedOnce(db: Db, j: JobId, max: nat) returns (d: Db)
    requires Reachable(db) && Claimable(db, j)
    ensures var tried := db.jobs[j].attempts + 1;
      Reachable(d)
        && d == db.(jobs := db.jobs[j := JobRow(if tried >= max then JobFailed else JobPending, tried, 0, db.now)])
  {
    var claimed := ClaimRepair(db, j, 0);
    Reaches(db, OnRepairs(DoClaim(j, 0)), claimed);
    d := FailRepair(claimed, j, 0, max);
    Reaches(claimed, OnRepairs(DoFailRepair(j, 0, max)), d);
    OneJobOf(db);
    ClaimThenFail(db, j, 0, 0, max);
  }

  /** A job that fails every attempt ends FAILED, whatever the cap. */
  lemma {:induction false} Exhausted(db: Db, j: JobId, max: nat) returns (d: Db)
    requires Reachable(db) && Claimable(db, j) && db.jobs[j].attempts < max
    ensures Reachable(d) && d == db.(jobs := db.jobs[j := JobRow(JobFailed, max, 0, db.now)])
    decreases max - db.jobs[j].attempts
  {
    d := TriedOnce(db, j, max);
    if db.jobs[j].attempts + 1 < max {
      d := Exhausted(d, j, max);
    }
  }

  /** A scan queues the chunk's repair, and the repair fails for good. */
  lemma QueuedAndFailed(db: Db, c: ChunkId, max: nat) returns (d: Db)
    requires Reachable(db) && Needy(db, c) && !HasActiveJob(db, c) && max > 0
    ensures Reachable(d) && JobId(c, db.serial) !in db.jobs
    ensures d == db.(jobs := db.jobs[JobId(c, db.serial) := JobRow(JobFailed, max, 0, db.now)], serial := db.serial + 1)
  {
    var queued := Queued(db, c);
    d := Exhausted(queued, JobId(c, db.serial), max);
    UnusedSerial(db, c);
  }

  lemma Queued(db: Db, c: ChunkId) returns (d: Db)
    requires Reachable(db) && Needy(db, c) && !HasActiveJob(db, c)
    ensures Reachable(d) && Claimable(d, JobId(c, db.serial))
    ensures d == db.(jobs := db.jobs[JobId(c, db.serial) := JobRow(JobPending, 0, 0, db.now)], serial := db.serial + 1)
  {
    NeedyNeedsRepair(db, c);
    Enqueued(db, c);
    d := EnqueueRepairs(db, 2, {c});
    Reaches(db, OnRepairs(DoEnqueue(2, {c})), d);
  }

  lemma Enqueued(db: Db, c: ChunkId)
    requires NeedsRepair(db, c, 2) && !HasActiveJob(db, c)
    ensures var j, d := JobId(c, db.serial), EnqueueRepairs(db, 2, {c});
      d == db.(jobs := db.jobs[j := JobRow(JobPending, 0, 0, db.now)], serial := db.serial + 1) && Claimable(d, j)
  {
    OneNewJob(db, c);
    var j := JobId(c, db.serial);
    MergeOne(db.jobs, j, JobRow(JobPending, 0, 0, db.now));
  }

  lemma MergeOne<K, V>(m: map<K, V>, k: K, v: V)
    ensures m + map[k := v] == m[k := v]
  {
  }

  lemma UnusedSerial(db: Db, c: ChunkId)
    requires Reachable(db)
    ensures JobId(c, db.serial) !in db.jobs
  {
    ReachedIsGood(db);
  }

  lemma OneNewJob(db: Db, c: ChunkId)
    requires NeedsRepair(db, c, 2) && !HasActiveJob(db, c)
    ensures NewJobs(db, 2, {c}) == map[JobId(c, db.serial) := JobRow(JobPending, 0, 0, db.now)]
  {
    var j := JobId(c, db.serial);
    assert forall i | i in NewJobs(db, 2, {c}) :: i == j;
    assert j in NewJobs(db, 2, {c});
  }

  ghost predicate AllFailed(db: Db) {
    forall j | j in db.jobs :: db.jobs[j].state == JobFailed
  }

  /** Two FAILED jobs on one chunk and one on another, all eligible for another chance. */
  lemma TwoFailed(k: Key, sum: string, max: nat) returns (db: Db, a: JobId, b: JobId, x: JobId)
    requires IsHexDigest(sum) && max > 0
    ensures Reachable(db) && AllFailed(db) && a in db.jobs && b in db.jobs && x in db.jobs
    ensures a != b && a.chunk == b.chunk == 7 && x.chunk == 8 && Needy(db, 7) && Needy(db, 8)
  {
    db := TwoNeedy(k, sum);
    a := JobId(7, db.serial);
    db := QueuedAndFailed(db, 7, max);
    x := JobId(8, db.serial);
    db := QueuedAndFailed(db, 8, max);
    b := JobId(7, db.serial);
    db := QueuedAndFailed(db, 7, max);
  }

  /**
   A reachable state, whatever the attempt cap, in which one chunk with two FAILED jobs keeps another chunk's
   job FAILED too: requeueing all three changes nothing, requeueing the other one alone revives it.
   */
  lemma RequeueBlocked(k: Key, sum: string, max: nat) returns (db: Db, a: JobId, b: JobId, x: JobId)
    requires IsHexDigest(sum) && max > 0
    ensures Reachable(db) && a != b && a.chunk == b.chunk != x.chunk && {a, b, x} <= db.jobs.Keys
    ensures RequeueFailed(db, {a, b, x}) == db && db.jobs[x].state == JobFailed
    ensures RequeueFailed(db, {x}).jobs[x].state == JobPending
  {
    db, a, b, x := TwoFailed(k, sum, max);
    RequeueAllOrNone(db, a, b, x);
  }

  lemma RequeueAllOrNone(db: Db, a: JobId, b: JobId, x: JobId)
    requires AllFailed(db) && a in db.jobs && b in db.jobs && x in db.jobs
    requires a != b && a.chunk == b.chunk == 7 && x.chunk == 8 && Needy(db, 7) && Needy(db, 8)
    ensures RequeueFailed(db, {a, b, x}) == db && RequeueFailed(db, {x}).jobs[x].state == JobPending
  {
    assert !HasActiveJob(db, 7) && !HasActiveJob(db, 8);
    assert a in Requeueable(db, {a, b, x}) && b in Requeueable(db, {a, b, x});
    assert Requeueable(db, {x}) == {x};
  }
}
