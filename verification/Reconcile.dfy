/** Comparing a returning node's disk with the replica table. */
module Reconcile {
  import opened Tables
  import opened Transactions
  import Orders

  datatype File = File(size: nat, digest: string)

  type Disk = map<ChunkId, File>

  datatype Result = Result(seen: nat, orphans: nat, phantoms: nat, verified: nat, corrupt: nat)

  datatype Verdict = Absent | Good | Wrong

  /** What the node's answer says about a recorded chunk. */
  function Judge(chunk: ChunkRow, c: ChunkId, disk: Disk, verify: bool): Verdict {
    if c !in disk then Absent
    else if disk[c].size != chunk.size then Wrong
    else if verify && (chunk.checksum == "" || disk[c].digest != chunk.checksum) then Wrong
    else Good
  }

  /** Replicas awaiting verification on the node. */
  function StaleOn(db: Db, n: NodeId): set<ChunkId> {
    set l | l in db.replicas && l.node == n && db.replicas[l] == Stale && l.chunk in db.chunks :: l.chunk
  }

  // --------------------------------------------------------------------- paging

  lemma {:induction false} LeastExists(s: set<nat>) returns (m: nat)
    requires s != {}
    ensures m in s && forall y | y in s :: m <= y
    decreases |s|
  {
    m :| m in s;
    if s != {m} {
      var rest := s - {m};
      assert s == rest + {m};
      var k := LeastExists(rest);
      if k < m {
        m := k;
      }
    }
  }

  function Least(s: set<nat>): (m: nat)
    requires s != {}
    ensures m in s && forall y | y in s :: m <= y
  {
    assert exists m :: m in s && forall y | y in s :: m <= y by {
      var m := LeastExists(s);
    }
    var m :| m in s && forall y | y in s :: m <= y;
    m
  }

  /** The `limit` least elements, in order. */
  ghost predicate IsPage(s: set<nat>, limit: nat, l: seq<nat>) {
    && |l| <= limit && (forall i | 0 <= i < |l| :: l[i] in s)
    && (forall i, j | 0 <= i < j < |l| :: l[i] < l[j])
    && (|l| < limit ==> forall x | x in s :: x in l)
    && (forall i, y | 0 <= i < |l| && y in s && y !in l :: l[i] < y)
  }

  lemma PrependPage(s: set<nat>, limit: nat, m: nat, tail: seq<nat>)
    requires m in s && (forall y | y in s :: m <= y) && limit > 0 && IsPage(s - {m}, limit - 1, tail)
    ensures IsPage(s, limit, [m] + tail)
  {
    var l := [m] + tail;
    assert forall i | 0 < i < |l| :: l[i] == tail[i - 1];
    assert forall x | x in tail :: x in l;
    assert l[0] in l;
  }

  /** `ORDER BY id LIMIT limit`. */
  function Page(s: set<nat>, limit: nat): (l: seq<nat>)
    decreases limit
  {
    if s == {} || limit == 0 then [] else [Least(s)] + Page(s - {Least(s)}, limit - 1)
  }

  lemma {:induction false} PageListed(s: set<nat>, limit: nat)
    ensures IsPage(s, limit, Page(s, limit))
    decreases limit
  {
    if s != {} && limit > 0 {
      PageListed(s - {Least(s)}, limit - 1);
      PrependPage(s, limit, Least(s), Page(s - {Least(s)}, limit - 1));
    }
  }

  function UpTo(s: set<nat>, after: nat): set<nat> {
    set c | c in s && c <= after
  }

  function Beyond(s: set<nat>, after: nat): set<nat> {
    set c | c in s && c > after
  }

  function StalePage(db: Db, n: NodeId, after: ChunkId, limit: nat): seq<ChunkId> {
    Page(Beyond(StaleOn(db, n), after), limit)
  }

  /** Nothing is skipped between two entries of a page. */
  lemma NoGapInPage(s: set<nat>, floor: nat, limit: nat, i: nat)
    requires var l := Page(Beyond(s, floor), limit); i < |l|
    ensures var l := Page(Beyond(s, floor), limit);
      var before := if i == 0 then floor else l[i - 1];
      before < l[i] && l[i] in s && UpTo(s, l[i]) == UpTo(s, before) + {l[i]}
  {
    var l := Page(Beyond(s, floor), limit);
    PageListed(Beyond(s, floor), limit);
    var before := if i == 0 then floor else l[i - 1];
    assert l[i] in l;
    assert forall j | i < j < |l| :: l[i] < l[j];
    assert forall j | 0 <= j < i - 1 :: l[j] < l[i - 1];
    forall y | y in UpTo(s, l[i]) ensures y <= before || y == l[i] {
      if y in l {
        var k :| 0 <= k < |l| && l[k] == y;
      }
    }
  }

  /** A page that is not full ends the listing. */
  lemma LastPage(s: set<nat>, floor: nat, limit: nat)
    requires |Page(Beyond(s, floor), limit)| < limit
    ensures var l := Page(Beyond(s, floor), limit);
      UpTo(s, if l == [] then floor else l[|l| - 1]) == s
  {
    var l := Page(Beyond(s, floor), limit);
    PageListed(Beyond(s, floor), limit);
    forall y | y in s ensures y <= if l == [] then floor else l[|l| - 1] {
      if y > floor {
        assert y in Beyond(s, floor) && y in l;
        var k :| 0 <= k < |l| && l[k] == y;
        assert k < |l| - 1 ==> l[k] < l[|l| - 1];
      }
    }
  }

  lemma BeyondUpTo(s: set<nat>, after: nat)
    ensures Beyond(s - UpTo(s, after), after) == Beyond(s, after)
  {
  }

  // ------------------------------------------------------------- one replica at a time

  /** The store step for one verdict. */
  function Resolve(db: Db, l: Loc, v: Verdict): Db {
    match v
    case Absent => DropReplica(db, l)
    case Good => PromoteVerified(db, l)
    case Wrong => MarkCorrupt(db, l)
  }

  /** The row a STALE replica ends with. */
  ghost predicate RowAfter(d: Db, l: Loc, v: Verdict) {
    match v
    case Absent => l !in d.replicas
    case Good => l in d.replicas && d.replicas[l] == Available
    case Wrong => l in d.replicas && d.replicas[l] == Corrupt
  }

  function VerdictOn(db: Db, c: ChunkId, disk: Disk, verify: bool): Verdict {
    if c in db.chunks then Judge(db.chunks[c], c, disk, verify) else Absent
  }

  /** Exactly the replicas of `done` on the node have been resolved, everything else is as it was. */
  ghost predicate Resolved(db: Db, d: Db, n: NodeId, disk: Disk, verify: bool, done: set<ChunkId>) {
    && d == db.(available := d.available, replicas := d.replicas, deletions := d.deletions, serial := d.serial)
    && (forall c | c in done :: RowAfter(d, Loc(c, n), VerdictOn(db, c, disk, verify)))
    && (forall l: Loc | !(l.node == n && l.chunk in done) ::
          (l in d.replicas <==> l in db.replicas) && (l in db.replicas ==> d.replicas[l] == db.replicas[l]))
    && (forall l: Loc :: l in d.deletions <==>
          l in db.deletions || (l.node == n && l.chunk in done && VerdictOn(db, l.chunk, disk, verify) == Wrong))
  }

  lemma ResolveOne(db: Db, l: Loc, v: Verdict)
    requires l in db.replicas && db.replicas[l] == Stale && l.chunk in db.chunks
    ensures var d := Resolve(db, l, v);
      && d == db.(available := d.available, replicas := d.replicas, deletions := d.deletions, serial := d.serial)
      && RowAfter(d, l, v)
      && (forall k: Loc | k != l ::
            (k in d.replicas <==> k in db.replicas) && (k in db.replicas ==> d.replicas[k] == db.replicas[k]))
      && (forall k: Loc :: k in d.deletions <==> k in db.deletions || (k == l && v == Wrong))
  {
  }

  lemma ResolvedMore(db: Db, d: Db, n: NodeId, disk: Disk, verify: bool, done: set<ChunkId>, c: ChunkId)
    requires Resolved(db, d, n, disk, verify, done) && c in StaleOn(db, n) && c !in done
    ensures Resolved(db, Resolve(d, Loc(c, n), VerdictOn(db, c, disk, verify)), n, disk, verify, done + {c})
  {
    var v := VerdictOn(db, c, disk, verify);
    ResolveOne(d, Loc(c, n), v);
    var next := Resolve(d, Loc(c, n), v);
    forall k | k in done + {c} ensures RowAfter(next, Loc(k, n), VerdictOn(db, k, disk, verify)) {
      assert k != c ==> Loc(k, n) != Loc(c, n);
    }
  }

  /** What is still STALE once `done` is resolved. */
  lemma StillStale(db: Db, d: Db, n: NodeId, disk: Disk, verify: bool, done: set<ChunkId>)
    requires Resolved(db, d, n, disk, verify, done) && done <= StaleOn(db, n)
    ensures StaleOn(d, n) == StaleOn(db, n) - done
  {
    forall c ensures c in StaleOn(d, n) <==> c in StaleOn(db, n) - done {
      assert Loc(c, n).node == n;
      if c in done {
        assert RowAfter(d, Loc(c, n), VerdictOn(db, c, disk, verify));
      }
    }
  }

  function Judged(db: Db, cs: set<ChunkId>, disk: Disk, verify: bool, v: Verdict): set<ChunkId> {
    set c | c in cs && VerdictOn(db, c, disk, verify) == v
  }

  /** The counters say how many of the resolved replicas got each verdict. */
  ghost predicate Counted(db: Db, done: set<ChunkId>, disk: Disk, verify: bool, res: Result) {
    && res.phantoms == |Judged(db, done, disk, verify, Absent)|
    && res.verified == |Judged(db, done, disk, verify, Good)|
    && res.corrupt == |Judged(db, done, disk, verify, Wrong)|
  }

  function Tally(res: Result, v: Verdict): Result {
    match v
    case Absent => res.(phantoms := res.phantoms + 1)
    case Good => res.(verified := res.verified + 1)
    case Wrong => res.(corrupt := res.corrupt + 1)
  }

  lemma CountedMore(db: Db, done: set<ChunkId>, disk: Disk, verify: bool, res: Result, c: ChunkId)
    requires Counted(db, done, disk, verify, res) && c !in done
    ensures Counted(db, done + {c}, disk, verify, Tally(res, VerdictOn(db, c, disk, verify)))
  {
    var mine := VerdictOn(db, c, disk, verify);
    forall v: Verdict
      ensures |Judged(db, done + {c}, disk, verify, v)| ==
        |Judged(db, done, disk, verify, v)| + if v == mine then 1 else 0
    {
      JudgedMore(db, done, disk, verify, v, c);
    }
  }

  lemma JudgedMore(db: Db, done: set<ChunkId>, disk: Disk, verify: bool, v: Verdict, c: ChunkId)
    requires c !in done
    ensures |Judged(db, done + {c}, disk, verify, v)| ==
            |Judged(db, done, disk, verify, v)| + if VerdictOn(db, c, disk, verify) == v then 1 else 0
  {
    var less, grown := Judged(db, done, disk, verify, v), Judged(db, done + {c}, disk, verify, v);
    if VerdictOn(db, c, disk, verify) == v {
      assert grown == less + {c};
    } else {
      assert grown == less;
    }
  }

  /** Each resolved replica is counted exactly once. */
  lemma CountsAddUp(db: Db, done: set<ChunkId>, disk: Disk, verify: bool, res: Result)
    requires Counted(db, done, disk, verify, res)
    ensures res.verified + res.phantoms + res.corrupt == |done|
  {
    var a, g := Judged(db, done, disk, verify, Absent), Judged(db, done, disk, verify, Good);
    var w := Judged(db, done, disk, verify, Wrong);
    Parts(done, a, g, w);
  }

  lemma Parts<T>(s: set<T>, a: set<T>, b: set<T>, c: set<T>)
    requires s == a + b + c && a !! b && a !! c && b !! c
    ensures |s| == |a| + |b| + |c|
  {
    assert (a + b) !! c;
  }

  // ---------------------------------------------------------------------- the pass

  /** A file on the node that no replica row and no write in flight accounts for. */
  predicate Orphan(db: Db, n: NodeId, disk: Disk, c: ChunkId) {
    c in disk && Loc(c, n) !in db.replicas && !(c in db.chunks && db.chunks[c].state == Pending)
  }

  /** Orphans of `cs` not queued before. */
  function NewOrphans(db: Db, n: NodeId, disk: Disk, cs: set<ChunkId>): set<ChunkId> {
    set c | c in cs && Orphan(db, n, disk, c) && Loc(c, n) !in db.deletions
  }

  ghost predicate OrphansQueued(db: Db, d: Db, n: NodeId, disk: Disk, cs: set<ChunkId>) {
    && d == db.(deletions := d.deletions, serial := d.serial)
    && forall l: Loc :: l in d.deletions <==>
      l in db.deletions || (l.node == n && l.chunk in cs && Orphan(db, n, disk, l.chunk))
  }

  lemma InsertOne(db: Db, l: Loc)
    ensures forall k: Loc :: k in InsertDeletions(db, {l}).deletions <==> k in db.deletions || k == l
  {
  }

  lemma OrphansMore(db: Db, d: Db, n: NodeId, disk: Disk, cs: set<ChunkId>, c: ChunkId)
    requires OrphansQueued(db, d, n, disk, cs) && c in disk && c !in cs
    ensures OrphansQueued(db, QueueOrphan(d, Loc(c, n)), n, disk, cs + {c})
    ensures Loc(c, n) !in d.deletions && Loc(c, n) in QueueOrphan(d, Loc(c, n)).deletions <==>
            Orphan(db, n, disk, c) && Loc(c, n) !in db.deletions
  {
    var next := QueueOrphan(d, Loc(c, n));
    InsertOne(d, Loc(c, n));
    forall l: Loc
      ensures l in next.deletions <==>
        l in db.deletions || (l.node == n && l.chunk in cs + {c} && Orphan(db, n, disk, l.chunk))
    {
      assert l.node == n && l.chunk == c ==> l == Loc(c, n);
    }
  }

  lemma NewOrphansMore(db: Db, n: NodeId, disk: Disk, cs: set<ChunkId>, c: ChunkId)
    requires c !in cs
    ensures |NewOrphans(db, n, disk, cs + {c})| ==
            |NewOrphans(db, n, disk, cs)| + if Orphan(db, n, disk, c) && Loc(c, n) !in db.deletions then 1 else 0
  {
    if Orphan(db, n, disk, c) && Loc(c, n) !in db.deletions {
      assert NewOrphans(db, n, disk, cs + {c}) == NewOrphans(db, n, disk, cs) + {c};
    } else {
      assert NewOrphans(db, n, disk, cs + {c}) == NewOrphans(db, n, disk, cs);
    }
  }

  /** Files the replica table does not know on this node are queued for deletion, each once. */
  method SweepOrphans(start: Db, n: NodeId, disk: Disk) returns (db: Db, orphans: nat)
    ensures OrphansQueued(start, db, n, disk, disk.Keys) && orphans == |NewOrphans(start, n, disk, disk.Keys)|
  {
    db, orphans := start, 0;
    var todo := disk.Keys;
    while todo != {}
      invariant todo <= disk.Keys && OrphansQueued(start, db, n, disk, disk.Keys - todo)
      invariant orphans == |NewOrphans(start, n, disk, disk.Keys - todo)|
      decreases |todo|
    {
      var c :| c in todo;
      var next := QueueOrphan(db, Loc(c, n));
      OrphansMore(start, db, n, disk, disk.Keys - todo, c);
      NewOrphansMore(start, n, disk, disk.Keys - todo, c);
      if Loc(c, n) !in db.deletions && Loc(c, n) in next.deletions {
        orphans := orphans + 1;
      }
      assert disk.Keys - (todo - {c}) == disk.Keys - todo + {c};
      db, todo := next, todo - {c};
    }
    assert disk.Keys - todo == disk.Keys;
  }

  /** The state of a pass whose cursor stands at `after`. */
  ghost predicate AtCursor(start: Db, db: Db, n: NodeId, disk: Disk, verify: bool, res: Result, after: ChunkId) {
    && Resolved(start, db, n, disk, verify, UpTo(StaleOn(start, n), after))
    && Counted(start, UpTo(StaleOn(start, n), after), disk, verify, res)
    && res.seen == res.orphans == 0
  }

  lemma CursorMoves(start: Db, db: Db, n: NodeId, disk: Disk, verify: bool, res: Result, after: ChunkId, c: ChunkId)
    requires AtCursor(start, db, n, disk, verify, res, after) && after < c && c in StaleOn(start, n)
    requires UpTo(StaleOn(start, n), c) == UpTo(StaleOn(start, n), after) + {c}
    ensures var v := VerdictOn(start, c, disk, verify);
      && VerdictOn(db, c, disk, verify) == v
      && AtCursor(start, Resolve(db, Loc(c, n), v), n, disk, verify, Tally(res, v), c)
  {
    ResolvedMore(start, db, n, disk, verify, UpTo(StaleOn(start, n), after), c);
    CountedMore(start, UpTo(StaleOn(start, n), after), disk, verify, res, c);
  }

  lemma PageAtCursor(start: Db, db: Db, n: NodeId, disk: Disk, verify: bool, res: Result, after: ChunkId, page: nat)
    requires AtCursor(start, db, n, disk, verify, res, after)
    ensures StalePage(db, n, after, page) == Page(Beyond(StaleOn(start, n), after), page)
  {
    StillStale(start, db, n, disk, verify, UpTo(StaleOn(start, n), after));
    BeyondUpTo(StaleOn(start, n), after);
  }

  /** Handling the next entry of a page moves the cursor to it. */
  lemma PageStep(start: Db, db: Db, n: NodeId, disk: Disk, verify: bool, res: Result, floor: ChunkId, page: nat, i: nat)
    requires i < |Page(Beyond(StaleOn(start, n), floor), page)|
    requires var l := Page(Beyond(StaleOn(start, n), floor), page);
      AtCursor(start, db, n, disk, verify, res, if i == 0 then floor else l[i - 1])
    ensures var c := Page(Beyond(StaleOn(start, n), floor), page)[i];
      var v := VerdictOn(db, c, disk, verify);
      AtCursor(start, Resolve(db, Loc(c, n), v), n, disk, verify, Tally(res, v), c)
  {
    var l := Page(Beyond(StaleOn(start, n), floor), page);
    NoGapInPage(StaleOn(start, n), floor, page, i);
    CursorMoves(start, db, n, disk, verify, res, if i == 0 then floor else l[i - 1], l[i]);
  }

  /** Handles one page; the cursor ends at its last entry. */
  method VerifyPage(ghost start: Db, from: Db, n: NodeId, disk: Disk, verify: bool, page: nat, counts: Result,
                    floor: ChunkId)
      returns (db: Db, res: Result, after: ChunkId, size: nat)
    requires AtCursor(start, from, n, disk, verify, counts, floor) && page >= 1
    ensures AtCursor(start, db, n, disk, verify, res, after)
    ensures size < page ==> UpTo(StaleOn(start, n), after) == StaleOn(start, n)
    ensures size >= page ==> |Beyond(StaleOn(start, n), after)| < |Beyond(StaleOn(start, n), floor)|
  {
    db, res, after := from, counts, floor;
    var stale := StalePage(db, n, floor, page);
    PageAtCursor(start, db, n, disk, verify, res, floor, page);
    size := |stale|;
    var i := 0;
    while i < |stale|
      invariant 0 <= i <= |stale| && after == if i == 0 then floor else stale[i - 1]
      invariant AtCursor(start, db, n, disk, verify, res, after)
    {
      var c := stale[i];
      PageStep(start, db, n, disk, verify, res, floor, page, i);
      var v := VerdictOn(db, c, disk, verify);
      db, res, after := Resolve(db, Loc(c, n), v), Tally(res, v), c;
      i := i + 1;
    }
    if size < page {
      LastPage(StaleOn(start, n), floor, page);
    } else {
      CursorAdvances(StaleOn(start, n), floor, page);
    }
  }

  // ------------------------------------------------------------------- what it comes to

  /** The chunks whose replica on the node is STALE. */
  ghost function Awaiting(db: Db, n: NodeId): set<ChunkId> {
    set c | c in db.chunks && Loc(c, n) in db.replicas && db.replicas[Loc(c, n)] == Stale
  }

  /** The file is the recorded chunk, as far as the check goes. */
  ghost predicate Matches(chunk: ChunkRow, file: File, verify: bool) {
    file.size == chunk.size && (verify ==> chunk.checksum != "" && file.digest == chunk.checksum)
  }

  /** Awaiting chunks whose file on the node is right. */
  ghost function Sound(db: Db, n: NodeId, disk: Disk, verify: bool): set<ChunkId> {
    set c | c in Awaiting(db, n) && c in disk && Matches(db.chunks[c], disk[c], verify)
  }

  /** Files on the node that neither a replica row nor a write in flight accounts for. */
  ghost function Unaccounted(db: Db, n: NodeId, disk: Disk): set<ChunkId> {
    set c | c in disk && Loc(c, n) !in db.replicas && (c in db.chunks ==> db.chunks[c].state != Pending)
  }

  lemma SameReplicas(db: Db, n: NodeId)
    ensures StaleOn(db, n) == Awaiting(db, n)
  {
    forall c ensures c in StaleOn(db, n) <==> c in Awaiting(db, n) {
      assert Loc(c, n).chunk == c && Loc(c, n).node == n;
    }
  }

  lemma SameVerdicts(db: Db, n: NodeId, disk: Disk, verify: bool)
    ensures forall c | c in Awaiting(db, n) ::
      && (VerdictOn(db, c, disk, verify) == Absent <==> c !in disk)
      && (VerdictOn(db, c, disk, verify) == Good <==> c in Sound(db, n, disk, verify))
    ensures Judged(db, Awaiting(db, n), disk, verify, Absent) == Awaiting(db, n) - disk.Keys
    ensures Judged(db, Awaiting(db, n), disk, verify, Good) == Sound(db, n, disk, verify)
    ensures Judged(db, Awaiting(db, n), disk, verify, Wrong) ==
      (Awaiting(db, n) * disk.Keys) - Sound(db, n, disk, verify)
  {
  }

  lemma SameOrphans(db: Db, n: NodeId, disk: Disk)
    ensures forall c :: Orphan(db, n, disk, c) <==> c in Unaccounted(db, n, disk)
    ensures NewOrphans(db, n, disk, disk.Keys) == set c | c in Unaccounted(db, n, disk) && Loc(c, n) !in db.deletions
  {
  }

  /** The row an awaiting replica ends with, by what the node has on disk. */
  ghost predicate Fate(start: Db, db: Db, n: NodeId, disk: Disk, verify: bool, c: ChunkId) {
    var l, good := Loc(c, n), c in Sound(start, n, disk, verify);
    && (l in db.replicas && db.replicas[l] == Available <==> good)
    && (l !in db.replicas <==> c !in disk)
    && (c in disk && !good ==> l in db.replicas && db.replicas[l] == Corrupt && l in db.deletions)
  }

  lemma ResolvedFates(start: Db, db: Db, n: NodeId, disk: Disk, verify: bool)
    requires Resolved(start, db, n, disk, verify, StaleOn(start, n))
    ensures forall c | c in Awaiting(start, n) :: Fate(start, db, n, disk, verify, c)
    ensures Awaiting(db, n) == {}
  {
    SameReplicas(start, n);
    SameReplicas(db, n);
    SameVerdicts(start, n, disk, verify);
    StillStale(start, db, n, disk, verify, StaleOn(start, n));
    forall c | c in Awaiting(start, n) ensures Fate(start, db, n, disk, verify, c) {
      assert RowAfter(db, Loc(c, n), VerdictOn(start, c, disk, verify));
    }
  }

  lemma CursorStarts(start: Db, n: NodeId, disk: Disk, verify: bool)
    requires 0 !in start.chunks
    ensures AtCursor(start, start, n, disk, verify, Result(0, 0, 0, 0, 0), 0)
  {
    assert UpTo(StaleOn(start, n), 0) == {};
  }

  /** Verifies the STALE replicas of a node page by page, with a chunk-id cursor. */
  method VerifyStale(start: Db, n: NodeId, disk: Disk, page: nat, verify: bool) returns (db: Db, res: Result)
    requires page >= 1 && 0 !in start.chunks
    ensures Resolved(start, db, n, disk, verify, StaleOn(start, n))
    ensures Counted(start, StaleOn(start, n), disk, verify, res)
    ensures res.seen == res.orphans == 0
    ensures forall c | c in Awaiting(start, n) :: Fate(start, db, n, disk, verify, c)
    ensures Awaiting(db, n) == {}
  {
    db, res := start, Result(0, 0, 0, 0, 0);
    var after: ChunkId := 0;
    CursorStarts(start, n, disk, verify);
    while true
      invariant AtCursor(start, db, n, disk, verify, res, after)
      decreases |Beyond(StaleOn(start, n), after)|
    {
      var size;
      db, res, after, size := VerifyPage(start, db, n, disk, verify, page, res, after);
      if size < page {
        ResolvedFates(start, db, n, disk, verify);
        return;
      }
    }
  }

  /** A full page leaves fewer entries beyond the cursor. */
  lemma CursorAdvances(s: set<nat>, floor: nat, page: nat)
    requires Page(Beyond(s, floor), page) != []
    ensures var l := Page(Beyond(s, floor), page); |Beyond(s, l[|l| - 1])| < |Beyond(s, floor)|
  {
    var l := Page(Beyond(s, floor), page);
    PageListed(Beyond(s, floor), page);
    var last := l[|l| - 1];
    assert Beyond(s, last) <= Beyond(s, floor) - {last};
    Orders.SubsetSize(Beyond(s, last), Beyond(s, floor) - {last});
  }

  /**
   Reconciliation is exact for every page size of at least one: on a disk that does not change,
   each STALE replica is handled once and ends AVAILABLE if its file is right, gone if there is none, and
   CORRUPT with a deletion job otherwise; nothing stays STALE; unaccounted files are queued, and nothing else;
   and each counter counts what it says.
   */
  method ReconcileNode(start: Db, n: NodeId, disk: Disk, page: nat, verify: bool) returns (db: Db, res: Result)
    requires page >= 1 && 0 !in start.chunks
    ensures forall c | c in Awaiting(start, n) :: Fate(start, db, n, disk, verify, c)
    ensures Awaiting(db, n) == {}
    ensures forall l: Loc | !(l.node == n && l.chunk in Awaiting(start, n)) ::
      (l in db.replicas <==> l in start.replicas) && (l in start.replicas ==> db.replicas[l] == start.replicas[l])
    ensures forall l: Loc :: l in db.deletions <==>
      || l in start.deletions
      || (l.node == n && l.chunk in Unaccounted(start, n, disk))
      || (l.node == n && l.chunk in (Awaiting(start, n) * disk.Keys) - Sound(start, n, disk, verify))
    ensures res.verified == |Sound(start, n, disk, verify)| && res.phantoms == |Awaiting(start, n) - disk.Keys|
    ensures res.corrupt == |(Awaiting(start, n) * disk.Keys) - Sound(start, n, disk, verify)|
    ensures res.verified + res.phantoms + res.corrupt == |Awaiting(start, n)|
    ensures res.orphans == |set c | c in Unaccounted(start, n, disk) && Loc(c, n) !in start.deletions|
    ensures res.seen == |disk|
  {
    var swept, orphans := SweepOrphans(start, n, disk);
    SameStale(start, swept, n);
    db, res := VerifyStale(swept, n, disk, page, verify);
    QueuedJobs(start, swept, db, n, disk, verify);
    SweptCounts(start, swept, n, disk, verify, res);
    CountsAddUp(start, StaleOn(start, n), disk, verify, res);
    SweptFates(start, swept, db, n, disk, verify);
    SpelledOut(start, n, disk, verify);
    res := res.(seen := |disk|, orphans := orphans);
  }

  /** The names used along the way mean what the result says. */
  lemma SpelledOut(start: Db, n: NodeId, disk: Disk, verify: bool)
    ensures StaleOn(start, n) == Awaiting(start, n)
    ensures Judged(start, StaleOn(start, n), disk, verify, Absent) == Awaiting(start, n) - disk.Keys
    ensures Judged(start, StaleOn(start, n), disk, verify, Good) == Sound(start, n, disk, verify)
    ensures Judged(start, StaleOn(start, n), disk, verify, Wrong) ==
      (Awaiting(start, n) * disk.Keys) - Sound(start, n, disk, verify)
    ensures forall c :: Orphan(start, n, disk, c) <==> c in Unaccounted(start, n, disk)
    ensures NewOrphans(start, n, disk, disk.Keys) ==
      set c | c in Unaccounted(start, n, disk) && Loc(c, n) !in start.deletions
    ensures forall c :: c in StaleOn(start, n) && VerdictOn(start, c, disk, verify) == Wrong <==>
      c in (Awaiting(start, n) * disk.Keys) - Sound(start, n, disk, verify)
  {
    SameReplicas(start, n);
    SameVerdicts(start, n, disk, verify);
    SameOrphans(start, n, disk);
  }

  lemma SweptFates(start: Db, swept: Db, db: Db, n: NodeId, disk: Disk, verify: bool)
    requires swept == start.(deletions := swept.deletions, serial := swept.serial)
    requires forall c | c in Awaiting(swept, n) :: Fate(swept, db, n, disk, verify, c)
    ensures forall c | c in Awaiting(start, n) :: Fate(start, db, n, disk, verify, c)
  {
    assert Awaiting(start, n) == Awaiting(swept, n);
    assert Sound(start, n, disk, verify) == Sound(swept, n, disk, verify);
    forall c | c in Awaiting(start, n) ensures Fate(start, db, n, disk, verify, c) {
      assert Fate(swept, db, n, disk, verify, c);
    }
  }

  /** Sweeping changes no verdict, so the counters count against the start. */
  lemma SweptCounts(start: Db, swept: Db, n: NodeId, disk: Disk, verify: bool, res: Result)
    requires swept == start.(deletions := swept.deletions, serial := swept.serial)
    requires Counted(swept, StaleOn(swept, n), disk, verify, res)
    ensures Counted(start, StaleOn(start, n), disk, verify, res)
  {
    forall v: Verdict
      ensures Judged(start, StaleOn(start, n), disk, verify, v) == Judged(swept, StaleOn(swept, n), disk, verify, v)
    {
      SameStale(start, swept, n);
    }
  }

  /** Jobs after both phases: those before, the orphans, and the corrupt replicas. */
  lemma QueuedJobs(start: Db, swept: Db, db: Db, n: NodeId, disk: Disk, verify: bool)
    requires OrphansQueued(start, swept, n, disk, disk.Keys) && Resolved(swept, db, n, disk, verify, StaleOn(start, n))
    ensures forall l: Loc :: l in db.deletions <==>
      || l in start.deletions
      || (l.node == n && Orphan(start, n, disk, l.chunk))
      || (l.node == n && l.chunk in StaleOn(start, n) && VerdictOn(start, l.chunk, disk, verify) == Wrong)
    ensures forall c | c in StaleOn(start, n) :: RowAfter(db, Loc(c, n), VerdictOn(start, c, disk, verify))
    ensures forall l: Loc | !(l.node == n && l.chunk in StaleOn(start, n)) ::
      (l in db.replicas <==> l in start.replicas) && (l in start.replicas ==> db.replicas[l] == start.replicas[l])
  {
    assert forall c :: VerdictOn(start, c, disk, verify) == VerdictOn(swept, c, disk, verify);
    forall l: Loc ensures l in db.deletions <==>
      || l in start.deletions
      || (l.node == n && Orphan(start, n, disk, l.chunk))
      || (l.node == n && l.chunk in StaleOn(start, n) && VerdictOn(start, l.chunk, disk, verify) == Wrong)
    {
      assert Orphan(start, n, disk, l.chunk) ==> l.chunk in disk.Keys;
    }
  }

  lemma SameStale(a: Db, b: Db, n: NodeId)
    requires b.replicas == a.replicas && b.chunks == a.chunks
    ensures StaleOn(b, n) == StaleOn(a, n)
  {
  }

  // --------------------------------------------------------------- dying and rejoining

  /** Declaring a node DEAD writes off exactly its AVAILABLE and WRITING replicas. */
  lemma DeadWritesOff(db: Db, n: NodeId, l: Loc)
    requires n in db.nodes
    ensures var d := SetNodeHealth(db, n, Dead);
      && d.nodes == db.nodes[n := db.nodes[n].(health := Dead)]
      && (l in d.replicas <==> l in db.replicas)
      && (l in db.replicas ==>
            var off := l.node == n && db.replicas[l] in {Available, Writing};
            d.replicas[l] == if off then Unavailable else db.replicas[l])
  {
    var rows := Shifted(db, n, {Available, Writing}, Unavailable);
    assert SetNodeHealth(db, n, Dead).replicas == (db.replicas - {}) + rows;
  }

  /**
   A node that died and came back has no trusted replica left: each one it had AVAILABLE is STALE
   until the reconciler has looked at it, and no other node's replica changed.
   */
  lemma RejoinDistrusts(db: Db, n: NodeId, h: Health, l: Loc)
    requires n in db.nodes && h != Dead
    ensures var d := MarkReplicasStale(SetNodeHealth(SetNodeHealth(db, n, Dead), n, h), n);
      && (l in d.replicas <==> l in db.replicas)
      && (l in db.replicas && l.node == n ==>
            && d.replicas[l] !in {Available, Writing, Unavailable}
            && (db.replicas[l] == Available ==> d.replicas[l] == Stale))
      && (l in db.replicas && l.node != n ==> d.replicas[l] == db.replicas[l])
  {
    DeadWritesOff(db, n, l);
  }
}
