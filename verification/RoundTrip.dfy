/** The byte path through the metadata tables: put an object, look it up, and get its bytes back. */
module RoundTrip {
  import opened Tables
  import opened Transactions
  import opened Invariants
  import opened Uploads
  import opened Fetching
  import opened Gateway
  import Layout
  import Multipart
  import Orders
  import Splitting

  type Bytes = Splitting.Bytes

  // ------------------------------------------------------------------------- put

  /** The chunk writes of an upload, `acked` listing who acknowledged each chunk. */
  function WritesFor(hash: Bytes -> string, parts: seq<Bytes>, ids: nat -> ChunkId, acked: nat -> seq<NodeId>,
                     bad: nat -> set<NodeId>): (ws: seq<ChunkWrite>)
    ensures |ws| == |parts|
    ensures forall i | 0 <= i < |ws| ::
      ws[i] == ChunkWrite(ids(i), |parts[i]|, hash(parts[i]), Orders.Elements(acked(i)), bad(i))
  {
    seq(|parts|, i requires 0 <= i < |parts| =>
      ChunkWrite(ids(i), |parts[i]|, hash(parts[i]), Orders.Elements(acked(i)), bad(i)))
  }

  /** The body is split and stored chunk by chunk, each chunk then reserved and committed in order. */
  method Put(db: Db, hash: Bytes -> string, stream: Bytes, cuts: seq<nat>, eager: bool, size: nat, maxTotal: int,
             o: ObjectId, k: Key,
             ids: nat -> ChunkId, acked: nat -> seq<NodeId>, bad: nat -> set<NodeId>, min: nat) returns (d: Db)
    requires size > 0 && !Splitting.OverSize(maxTotal, |stream|) && forall i: nat :: acked(i) != []
    ensures d == UploadAll(db, o, k, WritesFor(hash, Splitting.Chunks(stream, size), ids, acked, bad), |stream|, min)
  {
    var up, layout := StreamUpload(hash, stream, cuts, true, eager, size, maxTotal, acked);
    ghost var ws := WritesFor(hash, Splitting.Chunks(stream, size), ids, acked, bad);
    d := BeginUpload(db, o, k);
    var i := 0;
    while i < |layout|
      invariant 0 <= i <= |layout|
      invariant d == WriteAll(BeginUpload(db, o, k), o, ws[..i], min)
    {
      assert ws[..i + 1][..i] == ws[..i];
      var p := layout[i];
      d := WriteOne(d, o, i, ChunkWrite(ids(i), p.size, p.sum, Orders.Elements(p.nodes), bad(i)), min);
      i := i + 1;
    }
    assert ws[..i] == ws;
    d := CompleteUpload(d, o, up.size, up.count);
  }

  // ------------------------------------------------------------------------- get

  datatype Fetch = Missing | Degraded | Served(response: Response)

  /** The tables record these bytes as the object's chunks, in order. */
  ghost predicate Recorded(hash: Bytes -> string, db: Db, o: ObjectId, parts: seq<Bytes>)
    requires Multipart.Positioned(db.chunks)
  {
    var l := Multipart.InOrder(db.chunks, ObjectOwner(o));
    && |l| == |parts|
    && forall i | 0 <= i < |l| ::
         && l[i] in db.chunks && db.chunks[l[i]].size == |parts[i]|
         && db.chunks[l[i]].checksum == hash(parts[i])
  }

  /** The node can be asked for the chunk and serves these bytes, in any number of messages. */
  ghost predicate Serves(db: Db, serve: (ChunkId, NodeId) -> Answer, c: ChunkId, n: NodeId, data: Bytes) {
    && Readable(db, Loc(c, n))
    && serve(c, n).Stream? && serve(c, n).end == CleanEnd && Splitting.Concat(serve(c, n).messages) == data
  }

  ghost predicate SomeoneServes(db: Db, serve: (ChunkId, NodeId) -> Answer, c: ChunkId, data: Bytes) {
    exists n :: Serves(db, serve, c, n, data)
  }

  /** Each chunk of the object has a node that serves it. */
  ghost predicate Reachable(db: Db, o: ObjectId, serve: (ChunkId, NodeId) -> Answer, parts: seq<Bytes>)
    requires Multipart.Positioned(db.chunks)
  {
    var l := Multipart.InOrder(db.chunks, ObjectOwner(o));
    |l| == |parts| && forall i | 0 <= i < |l| :: SomeoneServes(db, serve, l[i], parts[i])
  }

  /** The database's side of the layout query: any function that returns the joined rows in order. */
  ghost predicate Answers(query: (Db, Owner) -> seq<Layout.Row>, db: Db, owner: Owner) {
    Multipart.Positioned(db.chunks) ==> Layout.IsResult(db, owner, true, query(db, owner))
  }

  function PlacementOf(db: Db, e: Layout.Entry): Placement {
    if e.chunk in db.chunks then Placement(db.chunks[e.chunk].size, db.chunks[e.chunk].checksum, e.replicas)
    else Placement(0, "", e.replicas)
  }

  function Placements(db: Db, es: seq<Layout.Entry>): (l: seq<Placement>)
    ensures |l| == |es| && forall i | 0 <= i < |es| :: l[i] == PlacementOf(db, es[i])
  {
    seq(|es|, i requires 0 <= i < |es| => PlacementOf(db, es[i]))
  }

  /** What node `n` answers when asked for the chunk of the `i`th entry. */
  function ServeEntry(es: seq<Layout.Entry>, serve: (ChunkId, NodeId) -> Answer): (nat, NodeId) -> Answer {
    (i: nat, n: NodeId) => if i < |es| then serve(es[i].chunk, n) else NoDial
  }

  lemma EntriesRecord(hash: Bytes -> string, db: Db, o: ObjectId, parts: seq<Bytes>)
    requires Multipart.Positioned(db.chunks) && Recorded(hash, db, o, parts)
    ensures var es := Layout.EntriesFor(db, Multipart.InOrder(db.chunks, ObjectOwner(o)), true);
      Records(hash, Placements(db, es), parts)
  {
  }

  lemma ReachableServed(db: Db, o: ObjectId, serve: (ChunkId, NodeId) -> Answer, parts: seq<Bytes>)
    requires Multipart.Positioned(db.chunks) && Reachable(db, o, serve, parts)
    ensures var es := Layout.EntriesFor(db, Multipart.InOrder(db.chunks, ObjectOwner(o)), true);
      |es| == |parts| && forall i | 0 <= i < |parts| ::
        StillServed(ServeEntry(es, serve), i, Placements(db, es)[i].nodes, parts[i])
  {
    var l := Multipart.InOrder(db.chunks, ObjectOwner(o));
    var es := Layout.EntriesFor(db, l, true);
    forall i | 0 <= i < |parts| ensures StillServed(ServeEntry(es, serve), i, Placements(db, es)[i].nodes, parts[i]) {
      EntryServed(db, es, serve, i, parts[i]);
    }
  }

  lemma EntryServed(db: Db, es: seq<Layout.Entry>, serve: (ChunkId, NodeId) -> Answer, i: nat, data: Bytes)
    requires i < |es| && es[i] == Layout.EntryFor(db, es[i].chunk, true) && SomeoneServes(db, serve, es[i].chunk, data)
    ensures StillServed(ServeEntry(es, serve), i, Placements(db, es)[i].nodes, data)
  {
    var n :| Serves(db, serve, es[i].chunk, n, data);
    Layout.HoldersRead(db, es[i].chunk);
    assert n in es[i].replicas;
    var j :| 0 <= j < |es[i].replicas| && es[i].replicas[j] == n;
    assert ServeEntry(es, serve)(i, Placements(db, es)[i].nodes[j]) == serve(es[i].chunk, n);
  }

  lemma ReachableFound(db: Db, k: Key, o: ObjectId, serve: (ChunkId, NodeId) -> Answer, parts: seq<Bytes>)
    requires Inv(db) && o in CompleteVersions(db.objects, k) && Multipart.Positioned(db.chunks)
    requires Reachable(db, o, serve, parts)
    ensures Layout.GetObject(db, k).Found?
  {
    var l := Multipart.InOrder(db.chunks, ObjectOwner(o));
    forall c | c in Owned(db.chunks, ObjectOwner(o)) ensures exists n :: Readable(db, Loc(c, n)) {
      assert c in l;
      var i :| 0 <= i < |l| && l[i] == c;
      assert SomeoneServes(db, serve, l[i], parts[i]);
      var n :| Serves(db, serve, l[i], n, parts[i]);
    }
    Layout.GetObjectIff(db, k, o);
  }

  lemma FoundLayout(db: Db, k: Key, o: ObjectId)
    requires Inv(db) && o in CompleteVersions(db.objects, k)
    ensures Multipart.Positioned(db.chunks)
    ensures var es := Layout.LayoutOf(db, ObjectOwner(o), true);
      && (|es| == db.objects[o].chunkCount <==> Layout.GetObject(db, k).Found?)
      && (|es| == db.objects[o].chunkCount ==>
            es == Layout.EntriesFor(db, Multipart.InOrder(db.chunks, ObjectOwner(o)), true))
  {
    Layout.GetObjectIff(db, k, o);
    Layout.OneCurrent(db, k, o);
  }

  /** The reply carries the bytes the Range header asks for, or a prefix of them if it broke off. */
  ghost predicate Truthful(f: Fetch, header: string, whole: Bytes) {
    f.Served? ==>
      var (status, expected) := Answered(header, whole);
      && f.response.status == status && f.response.body <= expected
      && (f.response.ok ==> f.response.body == expected && (status != 416 ==> f.response.contentLength == |expected|))
  }

  /**
   Looks the key up, loads the layout of its visible version and fetches the chunks. Whatever the nodes
   answer the client never receives a wrong byte, and as long as each chunk has a node that serves it the
   client receives exactly what its Range header asks for.
   */
  method Get(db: Db, hash: Bytes -> string, k: Key, header: string, query: (Db, Owner) -> seq<Layout.Row>,
             serve: (ChunkId, NodeId) -> Answer, ghost parts: seq<Bytes>) returns (f: Fetch)
    requires Distinctive(hash, parts) && Inv(db) && Multipart.Positioned(db.chunks)
    requires forall owner: Owner :: Answers(query, db, owner)
    requires forall v | v in CompleteVersions(db.objects, k) ::
      Recorded(hash, db, v, parts) && db.objects[v].size == |Splitting.Concat(parts)|
    ensures f.Missing? <==> CompleteVersions(db.objects, k) == {}
    ensures Truthful(f, header, Splitting.Concat(parts))
    ensures forall v | v in CompleteVersions(db.objects, k) && Reachable(db, v, serve, parts) ::
      f.Served? && f.response.ok
  {
    var versions := CompleteVersions(db.objects, k);
    if versions == {} {
      return Missing;
    }
    var v :| v in versions;
    FoundLayout(db, k, v);
    Layout.OneCurrent(db, k, v);
    assert Answers(query, db, ObjectOwner(v));
    var es := Layout.LoadLayout(db, ObjectOwner(v), true, query(db, ObjectOwner(v)));
    if Reachable(db, v, serve, parts) {
      ReachableFound(db, k, v, serve, parts);
    }
    if |es| != db.objects[v].chunkCount {
      return Degraded;
    }
    f := Deliver(db, hash, header, db.objects[v].size, es, serve, v, parts);
  }

  /** Fetches the chunks of a complete layout. */
  method Deliver(db: Db, hash: Bytes -> string, header: string, size: nat, es: seq<Layout.Entry>,
                 serve: (ChunkId, NodeId) -> Answer,
                 ghost v: ObjectId, ghost parts: seq<Bytes>) returns (f: Fetch)
    requires Distinctive(hash, parts) && Multipart.Positioned(db.chunks) && Recorded(hash, db, v, parts)
    requires size == |Splitting.Concat(parts)|
    requires es == Layout.EntriesFor(db, Multipart.InOrder(db.chunks, ObjectOwner(v)), true)
    ensures f.Served? && Truthful(f, header, Splitting.Concat(parts))
    ensures Reachable(db, v, serve, parts) ==> f.response.ok
  {
    var layout := Placements(db, es);
    var w := Asked(layout, ServeEntry(es, serve));
    EntriesRecord(hash, db, v, parts);
    if Reachable(db, v, serve, parts) {
      ReachableServed(db, v, serve, parts);
      ServedIsFair(hash, layout, parts, ServeEntry(es, serve));
    }
    var r := Gateway.GetObject(hash, header, size, layout, w, parts);
    f := Served(r);
  }

  // ---------------------------------------------------------------- put, then get

  ghost function IdSeq(ws: seq<ChunkWrite>): (l: seq<ChunkId>)
    ensures |l| == |ws| && forall i | 0 <= i < |ws| :: l[i] == ws[i].id
  {
    seq(|ws|, i requires 0 <= i < |ws| => ws[i].id)
  }

  lemma FinishedIsLaid(d: Db, o: ObjectId, k: Key, ws: seq<ChunkWrite>, size: nat)
    requires Finished(d, o, k, ws, size)
    ensures Laid(d.chunks, o, ws)
  {
    forall i | 0 <= i < |ws| ensures Listed(d.chunks, o, i, ws[i]) {
      assert Stored(d, o, i, ws[i]);
    }
  }

  /** An upload's chunks are listed in the order they were written. */
  lemma UploadOrder(chunks: map<ChunkId, ChunkRow>, o: ObjectId, ws: seq<ChunkWrite>)
    requires Multipart.Positioned(chunks) && Laid(chunks, o, ws)
    ensures Multipart.InOrder(chunks, ObjectOwner(o)) == IdSeq(ws)
  {
    var l, less := IdSeq(ws), Multipart.ByIndex(chunks);
    LaidListing(chunks, o, ws);
    Orders.ListingUnique(less, Owned(chunks, ObjectOwner(o)), Multipart.InOrder(chunks, ObjectOwner(o)), l);
  }

  lemma LaidListing(chunks: map<ChunkId, ChunkRow>, o: ObjectId, ws: seq<ChunkWrite>)
    requires Laid(chunks, o, ws)
    ensures Orders.IsListing(Multipart.ByIndex(chunks), Owned(chunks, ObjectOwner(o)), IdSeq(ws))
  {
    var l, less := IdSeq(ws), Multipart.ByIndex(chunks);
    forall c | c in Owned(chunks, ObjectOwner(o)) ensures c in l {
      var i :| 0 <= i < |ws| && ws[i].id == c;
      assert l[i] == c;
    }
    forall i | 0 <= i < |l| ensures l[i] in Owned(chunks, ObjectOwner(o)) {
      assert Listed(chunks, o, i, ws[i]);
    }
    forall i, j | 0 <= i < j < |l| ensures less(l[i], l[j]) {
      assert Listed(chunks, o, i, ws[i]) && Listed(chunks, o, j, ws[j]);
    }
  }

  lemma UploadRecorded(hash: Bytes -> string, d: Db, o: ObjectId, ws: seq<ChunkWrite>, parts: seq<Bytes>)
    requires Multipart.Positioned(d.chunks) && Laid(d.chunks, o, ws) && |ws| == |parts|
    requires forall i | 0 <= i < |ws| :: ws[i].size == |parts[i]| && ws[i].sum == hash(parts[i])
    ensures Recorded(hash, d, o, parts)
  {
    UploadOrder(d.chunks, o, ws);
    forall i | 0 <= i < |ws| ensures Listed(d.chunks, o, i, ws[i]) {
    }
  }

  /** One of the nodes that acknowledged the chunk is alive and still serves it. */
  ghost predicate Alive(db: Db, serve: (ChunkId, NodeId) -> Answer, c: ChunkId, acked: seq<NodeId>, data: Bytes) {
    exists n :: n in acked && n in db.nodes && db.nodes[n].health != Dead
      && serve(c, n).Stream? && serve(c, n).end == CleanEnd && Splitting.Concat(serve(c, n).messages) == data
  }

  lemma AliveServes(db: Db, d: Db, serve: (ChunkId, NodeId) -> Answer, o: ObjectId, i: nat, w: ChunkWrite,
                    acked: seq<NodeId>, data: Bytes)
    requires d.nodes == db.nodes && Stored(d, o, i, w) && w.ok == Orders.Elements(acked)
    requires Alive(db, serve, w.id, acked, data)
    ensures SomeoneServes(d, serve, w.id, data)
  {
    var n :| n in acked && n in db.nodes && db.nodes[n].health != Dead
      && serve(w.id, n).Stream? && serve(w.id, n).end == CleanEnd && Splitting.Concat(serve(w.id, n).messages) == data;
    assert n in AvailableNodes(d.replicas, w.id);
    assert Serves(d, serve, w.id, n, data);
  }

  /** What the caller supplies: unused identifiers, enough acknowledgements from known nodes, hex digests. */
  ghost predicate Supplied(db: Db, hash: Bytes -> string, ids: nat -> ChunkId, acked: nat -> seq<NodeId>,
                           bad: nat -> set<NodeId>, min: nat) {
    && (forall i: nat :: ids(i) !in db.chunks && ids(i) != 0)
    && (forall i: nat, j: nat | i < j :: ids(i) != ids(j))
    && (forall i: nat ::
          && acked(i) != [] && Orders.Elements(acked(i)) + bad(i) <= db.nodes.Keys
          && min <= |Orders.Elements(acked(i))|)
    && (forall b: Bytes :: IsHexDigest(hash(b)))
  }

  lemma SuppliedWell(db: Db, hash: Bytes -> string, parts: seq<Bytes>, ids: nat -> ChunkId, acked: nat -> seq<NodeId>,
                     bad: nat -> set<NodeId>, min: nat)
    requires Supplied(db, hash, ids, acked, bad, min)
    ensures WellWritten(db, WritesFor(hash, parts, ids, acked, bad), min)
  {
  }

  lemma UploadReachable(db: Db, d: Db, o: ObjectId, k: Key, ws: seq<ChunkWrite>, size: nat,
                        serve: (ChunkId, NodeId) -> Answer,
                        acked: nat -> seq<NodeId>, parts: seq<Bytes>)
    requires Multipart.Positioned(d.chunks) && Finished(d, o, k, ws, size) && d.nodes == db.nodes && |ws| == |parts|
    requires forall i | 0 <= i < |ws| ::
      ws[i].ok == Orders.Elements(acked(i)) && Alive(db, serve, ws[i].id, acked(i), parts[i])
    ensures Reachable(d, o, serve, parts)
  {
    var l := Multipart.InOrder(d.chunks, ObjectOwner(o));
    FinishedIsLaid(d, o, k, ws, size);
    UploadOrder(d.chunks, o, ws);
    forall i | 0 <= i < |l| ensures SomeoneServes(d, serve, l[i], parts[i]) {
      assert l[i] == ws[i].id && Stored(d, o, i, ws[i]);
      AliveServes(db, d, serve, o, i, ws[i], acked(i), parts[i]);
    }
  }

  /**
   The round trip through the tables: any stream within the size limit that ends cleanly, uploaded to any good
   state, becomes the visible version of its key, and reading the key returns it byte for byte, or any range of it
   as exactly those bytes, as long as each chunk was acknowledged by a live node that still serves it. Other
   replicas may answer anything at all.
   */
  method PutThenGet(db: Db, hash: Bytes -> string, stream: Bytes, cuts: seq<nat>, eager: bool, size: nat, maxTotal: int,
                    o: ObjectId, k: Key, ids: nat -> ChunkId, acked: nat -> seq<NodeId>, bad: nat -> set<NodeId>,
                    min: nat, query: (Db, Owner) -> seq<Layout.Row>, serve: (ChunkId, NodeId) -> Answer, header: string)
      returns (r: Response)
    requires size > 0 && !Splitting.OverSize(maxTotal, |stream|) && Distinctive(hash, Splitting.Chunks(stream, size))
    requires Inv(db) && o !in db.objects && Supplied(db, hash, ids, acked, bad, min)
    requires forall d: Db, owner: Owner :: Answers(query, d, owner)
    requires forall i: nat | i < |Splitting.Chunks(stream, size)| ::
      Alive(db, serve, ids(i), acked(i), Splitting.Chunks(stream, size)[i])
    ensures r.ok && (r.status as int, r.body) == Answered(header, stream)
    ensures r.status != 416 ==> r.contentLength == |r.body|
  {
    ghost var parts := Splitting.Chunks(stream, size);
    ghost var ws := WritesFor(hash, parts, ids, acked, bad);
    var d := Put(db, hash, stream, cuts, eager, size, maxTotal, o, k, ids, acked, bad, min);
    SuppliedWell(db, hash, parts, ids, acked, bad, min);
    UploadSucceeds(db, o, k, ws, |stream|, min);
    Multipart.CatalogOrdered(d, 0);
    FinishedIsLaid(d, o, k, ws, |stream|);
    UploadRecorded(hash, d, o, ws, parts);
    UploadReachable(db, d, o, k, ws, |stream|, serve, acked, parts);
    Splitting.ChunksJoin(stream, size);
    var f := Get(d, hash, k, header, query, serve, parts);
    r := f.response;
  }
}
