/** The read path's layout query: grouping joined rows, and when an object can be served. */
module Layout {
  import opened Tables
  import opened Transactions
  import opened Invariants
  import opened Orders
  import opened Multipart
  import Workers
  import Durability

  datatype Option<T> = None | Some(value: T)

  /** One row of the chunk/replica join; `None` is the NULL of a chunk without replicas. */
  datatype Row = Row(chunk: ChunkId, node: Option<NodeId>)

  datatype Entry = Entry(chunk: ChunkId, replicas: seq<NodeId>)

  // ------------------------------------------------------------------- the query

  /** Nodes whose replica of the chunk the query returns. */
  function Holders(db: Db, c: ChunkId, availableOnly: bool): set<NodeId> {
    set l | l in db.replicas && l.chunk == c && (availableOnly ==> Readable(db, l)) :: l.node
  }

  /** The chunks the query returns: with the read filter, those with a readable replica. */
  function Listed(db: Db, owner: Owner, availableOnly: bool): set<ChunkId> {
    set c | c in Owned(db.chunks, owner) && db.chunks[c].state == Committed
      && (availableOnly ==> Holders(db, c, true) != {})
  }

  function RowsFor(c: ChunkId, holders: set<NodeId>): set<Row> {
    if holders == {} then {Row(c, None)} else set n | n in holders :: Row(c, Some(n))
  }

  function Joined(db: Db, cs: set<ChunkId>, availableOnly: bool): set<Row> {
    set c, r | c in cs && r in RowsFor(c, Holders(db, c, availableOnly)) :: r
  }

  /** `ORDER BY chunk_index, node_id`. */
  function RowOrder(chunks: map<ChunkId, ChunkRow>): (Row, Row) -> bool {
    (a: Row, b: Row) =>
      || IndexOf(chunks, a.chunk) < IndexOf(chunks, b.chunk)
      || (&& IndexOf(chunks, a.chunk) == IndexOf(chunks, b.chunk)
          && a.node.Some? && b.node.Some? && a.node.value < b.node.value)
  }

  /** What the database returns: exactly the rows of the join, each once, in order. */
  ghost predicate IsResult(db: Db, owner: Owner, availableOnly: bool, rows: seq<Row>) {
    IsListing(RowOrder(db.chunks), Joined(db, Listed(db, owner, availableOnly), availableOnly), rows)
  }

  // ---------------------------------------------------------------- the reference

  function Less(): (NodeId, NodeId) -> bool {
    (a: NodeId, b: NodeId) => a < b
  }

  ghost function NodesInOrder(s: set<NodeId>): (l: seq<NodeId>)
    ensures IsListing(Less(), s, l) && |l| == |s|
  {
    Sorted(Less(), s)
  }

  ghost function EntryFor(db: Db, c: ChunkId, availableOnly: bool): Entry {
    Entry(c, NodesInOrder(Holders(db, c, availableOnly)))
  }

  ghost function EntriesFor(db: Db, l: seq<ChunkId>, availableOnly: bool): (es: seq<Entry>)
    ensures |es| == |l| && forall i | 0 <= i < |l| :: es[i] == EntryFor(db, l[i], availableOnly)
  {
    seq(|l|, i requires 0 <= i < |l| => EntryFor(db, l[i], availableOnly))
  }

  /** The chunks the query returns, by index. */
  ghost function ListedInOrder(db: Db, owner: Owner, availableOnly: bool): (l: seq<ChunkId>)
    requires Positioned(db.chunks)
    ensures IsListing(ByIndex(db.chunks), Listed(db, owner, availableOnly), l)
    ensures |l| == |Listed(db, owner, availableOnly)|
  {
    assert StrictTotal(ByIndex(db.chunks), Listed(db, owner, availableOnly));
    Sorted(ByIndex(db.chunks), Listed(db, owner, availableOnly))
  }

  /** One entry per chunk in index order, each with exactly its qualifying nodes. */
  ghost function LayoutOf(db: Db, owner: Owner, availableOnly: bool): seq<Entry>
    requires Positioned(db.chunks)
  {
    EntriesFor(db, ListedInOrder(db, owner, availableOnly), availableOnly)
  }

  // ----------------------------------------------------------------- the grouping

  function NodesOf(r: Row): seq<NodeId> {
    if r.node.Some? then [r.node.value] else []
  }

  /** A row opens an entry for a new chunk, or adds its node to the last entry. */
  function Absorb(out: seq<Entry>, r: Row): seq<Entry> {
    if out == [] || out[|out| - 1].chunk != r.chunk then out + [Entry(r.chunk, NodesOf(r))]
    else out[..|out| - 1] + [Entry(r.chunk, out[|out| - 1].replicas + NodesOf(r))]
  }

  function Group(out: seq<Entry>, rows: seq<Row>): seq<Entry>
    decreases |rows|
  {
    if rows == [] then out else Group(Absorb(out, rows[0]), rows[1..])
  }

  function EntryRows(e: Entry): seq<Row> {
    if e.replicas == [] then [Row(e.chunk, None)]
    else seq(|e.replicas|, i requires 0 <= i < |e.replicas| => Row(e.chunk, Some(e.replicas[i])))
  }

  function RowsOf(es: seq<Entry>): seq<Row> {
    if es == [] then [] else EntryRows(es[0]) + RowsOf(es[1..])
  }

  lemma {:induction false} GroupNodes(out: seq<Entry>, e: Entry, k: nat, rest: seq<Row>)
    requires 0 < k <= |e.replicas|
    ensures Group(out + [Entry(e.chunk, e.replicas[..k])], EntryRows(e)[k..] + rest) == Group(out + [e], rest)
    decreases |e.replicas| - k
  {
    var open := out + [Entry(e.chunk, e.replicas[..k])];
    var rows := EntryRows(e)[k..] + rest;
    if k == |e.replicas| {
      assert rows == rest && e.replicas[..k] == e.replicas;
    } else {
      assert rows[0] == Row(e.chunk, Some(e.replicas[k])) && rows[1..] == EntryRows(e)[k + 1..] + rest;
      assert open[..|open| - 1] == out;
      assert e.replicas[..k] + [e.replicas[k]] == e.replicas[..k + 1];
      GroupNodes(out, e, k + 1, rest);
    }
  }

  lemma GroupEntry(out: seq<Entry>, e: Entry, rest: seq<Row>)
    requires out == [] || out[|out| - 1].chunk != e.chunk
    ensures Group(out, EntryRows(e) + rest) == Group(out + [e], rest)
  {
    var rows := EntryRows(e) + rest;
    if e.replicas == [] {
      assert rows[0] == Row(e.chunk, None) && rows[1..] == rest;
    } else {
      assert rows[0] == Row(e.chunk, Some(e.replicas[0])) && rows[1..] == EntryRows(e)[1..] + rest;
      assert e.replicas[..1] == [e.replicas[0]];
      GroupNodes(out, e, 1, rest);
    }
  }

  /** Grouping undoes the join: whatever entries were spread into rows come back. */
  lemma {:induction false} GroupUndoes(out: seq<Entry>, es: seq<Entry>)
    requires forall i | 0 <= i < |es| - 1 :: es[i].chunk != es[i + 1].chunk
    requires out == [] || es == [] || out[|out| - 1].chunk != es[0].chunk
    ensures Group(out, RowsOf(es)) == out + es
    decreases |es|
  {
    if es == [] {
      assert out + es == out;
    } else {
      GroupEntry(out, es[0], RowsOf(es[1..]));
      GroupUndoes(out + [es[0]], es[1..]);
      assert out + [es[0]] + es[1..] == out + es;
    }
  }

  // --------------------------------------------------- rows of the reference layout

  lemma EntryListing(chunks: map<ChunkId, ChunkRow>, c: ChunkId, holders: set<NodeId>)
    ensures IsListing(RowOrder(chunks), RowsFor(c, holders), EntryRows(Entry(c, NodesInOrder(holders))))
  {
    var l := NodesInOrder(holders);
    var rows := EntryRows(Entry(c, l));
    if holders != {} {
      assert forall i | 0 <= i < |l| :: rows[i] == Row(c, Some(l[i])) && l[i] in l;
      forall r | r in RowsFor(c, holders) ensures r in rows {
        var i :| 0 <= i < |l| && l[i] == r.node.value;
        assert rows[i] == r;
      }
      forall i, j | 0 <= i < j < |rows| ensures RowOrder(chunks)(rows[i], rows[j]) {
        assert Less()(l[i], l[j]);
      }
    }
  }

  lemma JoinedSplit(db: Db, l: seq<ChunkId>, availableOnly: bool)
    requires l != []
    ensures Joined(db, Elements(l), availableOnly) ==
            RowsFor(l[0], Holders(db, l[0], availableOnly)) + Joined(db, Elements(l[1..]), availableOnly)
  {
    assert Elements(l) == {l[0]} + Elements(l[1..]);
  }

  lemma JoinedChunk(db: Db, cs: set<ChunkId>, availableOnly: bool, r: Row)
    requires r in Joined(db, cs, availableOnly)
    ensures r.chunk in cs
  {
  }

  /** The rows of the first chunk come before those of the others. */
  lemma FirstBeforeOthers(db: Db, l: seq<ChunkId>, availableOnly: bool)
    requires l != [] && forall i, j | 0 <= i < j < |l| :: IndexOf(db.chunks, l[i]) < IndexOf(db.chunks, l[j])
    ensures forall x, y | x in RowsFor(l[0], Holders(db, l[0], availableOnly))
              && y in Joined(db, Elements(l[1..]), availableOnly) :: RowOrder(db.chunks)(x, y)
  {
    var rest := l[1..];
    forall x, y | x in RowsFor(l[0], Holders(db, l[0], availableOnly)) && y in Joined(db, Elements(rest), availableOnly)
      ensures RowOrder(db.chunks)(x, y)
    {
      JoinedChunk(db, Elements(rest), availableOnly, y);
      var j :| 0 <= j < |rest| && rest[j] == y.chunk;
      assert l[j + 1] == y.chunk && x.chunk == l[0];
    }
  }

  lemma {:induction false} EntriesListing(db: Db, l: seq<ChunkId>, availableOnly: bool)
    requires forall i, j | 0 <= i < j < |l| :: IndexOf(db.chunks, l[i]) < IndexOf(db.chunks, l[j])
    ensures IsListing(RowOrder(db.chunks), Joined(db, Elements(l), availableOnly),
                      RowsOf(EntriesFor(db, l, availableOnly)))
    decreases |l|
  {
    if l != [] {
      var es := EntriesFor(db, l, availableOnly);
      assert es[1..] == EntriesFor(db, l[1..], availableOnly);
      EntriesListing(db, l[1..], availableOnly);
      EntryListing(db.chunks, l[0], Holders(db, l[0], availableOnly));
      JoinedSplit(db, l, availableOnly);
      var mine, others := RowsFor(l[0], Holders(db, l[0], availableOnly)), Joined(db, Elements(l[1..]), availableOnly);
      FirstBeforeOthers(db, l, availableOnly);
      JoinListings(RowOrder(db.chunks), mine, EntryRows(es[0]), others, RowsOf(es[1..]));
    }
  }

  lemma RowsTotal(db: Db, owner: Owner, availableOnly: bool)
    requires Positioned(db.chunks)
    ensures StrictTotal(RowOrder(db.chunks), Joined(db, Listed(db, owner, availableOnly), availableOnly))
  {
    var rows := Joined(db, Listed(db, owner, availableOnly), availableOnly);
    forall a, b | a in rows && b in rows && a != b ensures RowOrder(db.chunks)(a, b) || RowOrder(db.chunks)(b, a) {
      JoinedChunk(db, Listed(db, owner, availableOnly), availableOnly, a);
      JoinedChunk(db, Listed(db, owner, availableOnly), availableOnly, b);
      if a.chunk == b.chunk {
        assert a in RowsFor(a.chunk, Holders(db, a.chunk, availableOnly))
          && b in RowsFor(a.chunk, Holders(db, a.chunk, availableOnly));
      }
    }
  }

  /** The database's answer is the reference layout, spread into rows. */
  lemma ResultRows(db: Db, owner: Owner, availableOnly: bool, rows: seq<Row>)
    requires Positioned(db.chunks) && IsResult(db, owner, availableOnly, rows)
    ensures rows == RowsOf(LayoutOf(db, owner, availableOnly))
  {
    var l := ListedInOrder(db, owner, availableOnly);
    assert forall i, j | 0 <= i < j < |l| :: ByIndex(db.chunks)(l[i], l[j]);
    EntriesListing(db, l, availableOnly);
    assert Elements(l) == Listed(db, owner, availableOnly);
    RowsTotal(db, owner, availableOnly);
    ListingUnique(RowOrder(db.chunks), Joined(db, Listed(db, owner, availableOnly), availableOnly), rows,
                  RowsOf(LayoutOf(db, owner, availableOnly)));
  }

  /** Opening an entry if needed and then appending the node to the last entry. */
  lemma AbsorbInPlace(before: seq<Entry>, r: Row)
    ensures
      var grown :=
        if before == [] || before[|before| - 1].chunk != r.chunk then before + [Entry(r.chunk, [])] else before;
      var k := |grown| - 1;
      Absorb(before, r) ==
        if r.node.Some? then grown[k := Entry(grown[k].chunk, grown[k].replicas + [r.node.value])] else grown
  {
    if before == [] || before[|before| - 1].chunk != r.chunk {
      assert r.node.Some? ==> [] + [r.node.value] == NodesOf(r);
    } else {
      var last := before[|before| - 1];
      assert r.node.None? ==> last.replicas + NodesOf(r) == last.replicas;
      assert before[..|before| - 1] + [last] == before;
    }
  }

  lemma GroupStep(out: seq<Entry>, rows: seq<Row>, i: nat)
    requires i < |rows|
    ensures Group(out, rows[i..]) == Group(Absorb(out, rows[i]), rows[i + 1..])
  {
    assert rows[i..][0] == rows[i] && rows[i..][1..] == rows[i + 1..];
  }

  /** The first `i` rows are grouped, the last entry open. */
  ghost predicate Grouped(rows: seq<Row>, i: nat, out: seq<Entry>, first: bool, current: ChunkId) {
    && i <= |rows| && (first <==> out == []) && (!first ==> current == out[|out| - 1].chunk)
    && Group(out, rows[i..]) == Group([], rows)
  }

  lemma GroupedMore(rows: seq<Row>, i: nat, out: seq<Entry>, first: bool, current: ChunkId)
    requires i < |rows| && Grouped(rows, i, out, first, current)
    ensures Grouped(rows, i + 1, Absorb(out, rows[i]), false, rows[i].chunk)
  {
    GroupStep(out, rows, i);
  }

  /** The loop over result rows that appends to the last entry. */
  method GroupRows(rows: seq<Row>) returns (out: seq<Entry>)
    ensures out == Group([], rows)
  {
    out := [];
    var first, current, i := true, 0, 0;
    assert rows[0..] == rows;
    while i < |rows|
      invariant Grouped(rows, i, out, first, current)
      decreases |rows| - i
    {
      var r := rows[i];
      GroupedMore(rows, i, out, first, current);
      AbsorbInPlace(out, r);
      if first || r.chunk != current {
        out := out + [Entry(r.chunk, [])];
        current := r.chunk;
        first := false;
      }
      if r.node.Some? {
        out := out[|out| - 1 := Entry(out[|out| - 1].chunk, out[|out| - 1].replicas + [r.node.value])];
      }
      i := i + 1;
    }
  }

  /** The query and the grouping loop together rebuild the layout. */
  method LoadLayout(db: Db, owner: Owner, availableOnly: bool, rows: seq<Row>) returns (out: seq<Entry>)
    requires Positioned(db.chunks) && IsResult(db, owner, availableOnly, rows)
    ensures out == LayoutOf(db, owner, availableOnly)
  {
    out := GroupRows(rows);
    LayoutChunks(db, owner, availableOnly);
    GroupUndoes([], LayoutOf(db, owner, availableOnly));
    ResultRows(db, owner, availableOnly, rows);
  }

  lemma LayoutChunks(db: Db, owner: Owner, availableOnly: bool)
    requires Positioned(db.chunks)
    ensures var es := LayoutOf(db, owner, availableOnly); forall i | 0 <= i < |es| - 1 :: es[i].chunk != es[i + 1].chunk
  {
    var l := ListedInOrder(db, owner, availableOnly);
    assert forall i, j | 0 <= i < j < |l| :: ByIndex(db.chunks)(l[i], l[j]);
  }

  /** What the query asks of a replica. */
  ghost predicate Qualifies(db: Db, c: ChunkId, n: NodeId, availableOnly: bool) {
    && Loc(c, n) in db.replicas
    && (availableOnly ==> db.replicas[Loc(c, n)] == Available && n in db.nodes && db.nodes[n].health != Dead)
  }

  /** The entry has the chunk's qualifying nodes, each once, by rising id. */
  ghost predicate Accurate(db: Db, e: Entry, availableOnly: bool) {
    && (forall n :: n in e.replicas <==> Qualifies(db, e.chunk, n, availableOnly))
    && forall a, b | 0 <= a < b < |e.replicas| :: e.replicas[a] < e.replicas[b]
  }

  lemma HoldersMean(db: Db, c: ChunkId, availableOnly: bool)
    ensures forall n :: n in Holders(db, c, availableOnly) <==> Qualifies(db, c, n, availableOnly)
    ensures Holders(db, c, availableOnly) != {} <==> exists n :: Qualifies(db, c, n, availableOnly)
  {
    forall n ensures n in Holders(db, c, availableOnly) <==> Qualifies(db, c, n, availableOnly) {
      assert Loc(c, n).node == n;
    }
  }

  lemma EntryMeans(db: Db, c: ChunkId, availableOnly: bool)
    ensures Accurate(db, EntryFor(db, c, availableOnly), availableOnly)
  {
    var e := EntryFor(db, c, availableOnly);
    HoldersMean(db, c, availableOnly);
    forall a, b | 0 <= a < b < |e.replicas| ensures e.replicas[a] < e.replicas[b] {
      assert Less()(e.replicas[a], e.replicas[b]);
    }
  }

  ghost predicate Rising(chunks: map<ChunkId, ChunkRow>, l: seq<ChunkId>) {
    forall i, j | 0 <= i < j < |l| ::
      l[i] in chunks && l[j] in chunks && chunks[l[i]].index < chunks[l[j]].index
  }

  /** The chunks of the layout, by rising index. */
  lemma ListedMeans(db: Db, owner: Owner, availableOnly: bool)
    requires Positioned(db.chunks)
    ensures var l := ListedInOrder(db, owner, availableOnly);
      && (forall c :: c in l <==> Shows(db, owner, availableOnly, c))
      && Rising(db.chunks, l)
  {
    var l := ListedInOrder(db, owner, availableOnly);
    forall c ensures c in l <==> Shows(db, owner, availableOnly, c) {
      HoldersMean(db, c, availableOnly);
      assert c in l <==> c in Listed(db, owner, availableOnly);
    }
    forall i, j | 0 <= i < j < |l|
      ensures l[i] in db.chunks && l[j] in db.chunks && db.chunks[l[i]].index < db.chunks[l[j]].index
    {
      assert ByIndex(db.chunks)(l[i], l[j]) && l[i] in l && l[j] in l;
    }
  }

  /** The entries show the chunks of the list, each accurately. */
  ghost predicate SpelledOut(db: Db, availableOnly: bool, l: seq<ChunkId>, es: seq<Entry>) {
    |es| == |l| && forall i | 0 <= i < |es| :: es[i].chunk == l[i] && Accurate(db, es[i], availableOnly)
  }

  /**
   The layout spelled out: the owner's committed chunks, with the read filter only those with a qualifying
   replica, by rising index, each with exactly its qualifying nodes.
   */
  lemma LayoutMeans(db: Db, owner: Owner, availableOnly: bool) returns (l: seq<ChunkId>)
    requires Positioned(db.chunks)
    ensures SpelledOut(db, availableOnly, l, LayoutOf(db, owner, availableOnly))
    ensures forall c :: c in l <==> Shows(db, owner, availableOnly, c)
    ensures Rising(db.chunks, l)
  {
    l := ListedInOrder(db, owner, availableOnly);
    ListedMeans(db, owner, availableOnly);
    forall i | 0 <= i < |l| ensures Accurate(db, EntryFor(db, l[i], availableOnly), availableOnly) {
      EntryMeans(db, l[i], availableOnly);
    }
  }

  ghost predicate Shows(db: Db, owner: Owner, availableOnly: bool, c: ChunkId) {
    && c in db.chunks && db.chunks[c].owner == owner && db.chunks[c].state == Committed
    && (availableOnly ==> exists n :: Qualifies(db, c, n, true))
  }

  // --------------------------------------------------------------------- GetObject

  datatype Reply = Found(version: ObjectId, layout: seq<Entry>) | NotFound | Conflict

  /** The current version's layout, refused when it lists fewer chunks than the object declares. */
  ghost function GetObject(db: Db, k: Key): Reply
    requires Positioned(db.chunks)
  {
    if o :| o in CompleteVersions(db.objects, k) then
      var layout := LayoutOf(db, ObjectOwner(o), true);
      if |layout| == db.objects[o].chunkCount then Found(o, layout) else Conflict
    else NotFound
  }

  lemma HoldersRead(db: Db, c: ChunkId)
    ensures forall n :: n in Holders(db, c, true) <==> Readable(db, Loc(c, n))
    ensures Holders(db, c, true) != {} <==> exists n :: Readable(db, Loc(c, n))
  {
    forall n ensures n in Holders(db, c, true) <==> Readable(db, Loc(c, n)) {
      assert Loc(c, n).node == n;
    }
  }

  lemma OneCurrent(db: Db, k: Key, o: ObjectId)
    requires OneVersion(db) && o in CompleteVersions(db.objects, k)
    ensures CompleteVersions(db.objects, k) == {o}
  {
  }

  /**
   In every reachable state a visible object is served if and only if each of its chunks has an
   AVAILABLE replica on a node that is not DEAD; then all its chunks are there, in index order,
   each with exactly its readable nodes. Otherwise the read is refused.
   */
  lemma GetObjectIff(db: Db, k: Key, o: ObjectId)
    requires Inv(db) && o in CompleteVersions(db.objects, k)
    ensures Positioned(db.chunks)
    ensures GetObject(db, k).Found? <==>
            forall c | c in Owned(db.chunks, ObjectOwner(o)) :: exists n :: Readable(db, Loc(c, n))
    ensures GetObject(db, k).Found? ==>
            GetObject(db, k) == Found(o, EntriesFor(db, InOrder(db.chunks, ObjectOwner(o)), true))
    ensures GetObject(db, k).Found? || GetObject(db, k).Conflict?
  {
    CatalogOrdered(db, 0);
    OneCurrent(db, k, o);
    SettledCount(db, o);
    ServedIff(db, ObjectOwner(o));
  }

  /** The layout is complete exactly when every chunk is readable. */
  lemma ServedIff(db: Db, owner: Owner)
    requires Positioned(db.chunks) && AllCommitted(db.chunks, owner, |Owned(db.chunks, owner)|)
    ensures |LayoutOf(db, owner, true)| == |Owned(db.chunks, owner)| <==>
            forall c | c in Owned(db.chunks, owner) :: exists n :: Readable(db, Loc(c, n))
    ensures |LayoutOf(db, owner, true)| == |Owned(db.chunks, owner)| ==>
            LayoutOf(db, owner, true) == EntriesFor(db, InOrder(db.chunks, owner), true)
  {
    var all, seen := Owned(db.chunks, owner), Listed(db, owner, true);
    forall c | c in all ensures c in seen <==> exists n :: Readable(db, Loc(c, n)) {
      HoldersRead(db, c);
    }
    SubsetSize(seen, all);
    if |seen| == |all| {
      FullListing(db, owner);
    } else {
      assert seen != all;
    }
  }

  lemma SettledCount(db: Db, o: ObjectId)
    requires NoHoles(db) && o in db.objects && db.objects[o].state == Complete
    ensures AllCommitted(db.chunks, ObjectOwner(o), db.objects[o].chunkCount)
  {
    assert Settled(db, ObjectOwner(o));
  }

  lemma FullListing(db: Db, owner: Owner)
    requires Positioned(db.chunks) && Listed(db, owner, true) == Owned(db.chunks, owner)
    ensures ListedInOrder(db, owner, true) == InOrder(db.chunks, owner)
  {
    assert StrictTotal(ByIndex(db.chunks), Owned(db.chunks, owner));
    ListingUnique(ByIndex(db.chunks), Owned(db.chunks, owner), ListedInOrder(db, owner, true),
                  InOrder(db.chunks, owner));
  }

  /** A key without a visible version is not found. */
  lemma GetObjectMissing(db: Db, k: Key)
    requires Positioned(db.chunks)
    ensures GetObject(db, k) == NotFound <==> CompleteVersions(db.objects, k) == {}
  {
  }

  /**
   Fault tolerance as a reader sees it: over every run from a fresh system in which fewer than
   `m` nodes are ever declared DEAD and the object's chunks are left in peace, reading the object
   returns its full layout.
   */
  lemma ObjectSurvives(events: seq<Workers.Event>, k: Key, o: ObjectId, m: nat)
    requires o in CompleteVersions(Workers.Play(Workers.Boot, events).db.objects, k)
    requires forall c | c in Owned(Workers.Play(Workers.Boot, events).db.chunks, ObjectOwner(o)) ::
               Durability.CalmRun(Workers.Boot, events, c, m)
    requires |Workers.Play(Workers.Boot, events).lost| < m
    ensures var db := Workers.Play(Workers.Boot, events).db;
      && Positioned(db.chunks)
      && GetObject(db, k) == Found(o, EntriesFor(db, InOrder(db.chunks, ObjectOwner(o)), true))
      && |InOrder(db.chunks, ObjectOwner(o))| == db.objects[o].chunkCount
  {
    EmptyInv();
    Workers.PlayInv(Workers.Boot, events);
    Durability.FaultTolerance(events, o, m);
    ReadableIsFound(Workers.Play(Workers.Boot, events).db, k, o);
  }

  lemma ReadableIsFound(db: Db, k: Key, o: ObjectId)
    requires Inv(db) && o in CompleteVersions(db.objects, k)
    requires forall c | c in Owned(db.chunks, ObjectOwner(o)) :: exists n :: Readable(db, Loc(c, n))
    ensures Positioned(db.chunks)
    ensures GetObject(db, k) == Found(o, EntriesFor(db, InOrder(db.chunks, ObjectOwner(o)), true))
    ensures |InOrder(db.chunks, ObjectOwner(o))| == db.objects[o].chunkCount
  {
    GetObjectIff(db, k, o);
    SettledCount(db, o);
    ListingSize(ByIndex(db.chunks), Owned(db.chunks, ObjectOwner(o)), InOrder(db.chunks, ObjectOwner(o)));
  }
}
