/**
 Multipart assembly: re-parenting and renumbering chunks preserves what the parts say.
 */
module Multipart {
  import opened Tables
  import opened Transactions
  import opened Invariants
  import opened Orders
  import Sums

  type Chunks = map<ChunkId, ChunkRow>
  type Parts = map<PartId, PartRow>

  /** `ORDER BY chunk_index`. */
  function ByIndex(chunks: Chunks): (ChunkId, ChunkId) -> bool {
    (a: ChunkId, b: ChunkId) => IndexOf(chunks, a) < IndexOf(chunks, b)
  }

  /** No two chunks of one owner share a position. */
  ghost predicate Positioned(chunks: Chunks) {
    forall a, b | a in chunks && b in chunks && chunks[a].owner == chunks[b].owner
      && chunks[a].index == chunks[b].index ::
      a == b
  }

  /** Finished parts of one session have distinct numbers. */
  ghost predicate Numbered(parts: Parts, u: UploadId) {
    forall p, q | p in CompleteParts(parts, u) && q in CompleteParts(parts, u) && parts[p].number == parts[q].number ::
      p == q
  }

  lemma CatalogOrdered(db: Db, u: UploadId)
    requires CatalogInv(db)
    ensures Positioned(db.chunks) && Numbered(db.parts, u)
  {
  }

  /** An owner's chunks in index order. */
  ghost function InOrder(chunks: Chunks, owner: Owner): (l: seq<ChunkId>)
    requires Positioned(chunks)
    ensures IsListing(ByIndex(chunks), Owned(chunks, owner), l)
  {
    Sorted(ByIndex(chunks), Owned(chunks, owner))
  }

  /** A session's finished parts in part-number order. */
  ghost function PartsInOrder(parts: Parts, u: UploadId): (l: seq<PartId>)
    requires Numbered(parts, u)
    ensures IsListing(ByNumber(parts), CompleteParts(parts, u), l)
  {
    Sorted(ByNumber(parts), CompleteParts(parts, u))
  }

  /** The bytes of a list of chunks, given what each chunk holds. */
  ghost function Bytes<T>(content: ChunkId -> seq<T>, l: seq<ChunkId>): seq<T> {
    if l == [] then [] else content(l[0]) + Bytes(content, l[1..])
  }

  /** The chunks of the given parts, part after part, each in index order. */
  ghost function Flatten(chunks: Chunks, ps: seq<PartId>): seq<ChunkId>
    requires Positioned(chunks)
  {
    if ps == [] then [] else InOrder(chunks, PartOwner(ps[0])) + Flatten(chunks, ps[1..])
  }

  /** The bytes of the given parts, part after part. */
  ghost function PartBytes<T>(chunks: Chunks, content: ChunkId -> seq<T>, ps: seq<PartId>): seq<T>
    requires Positioned(chunks)
  {
    if ps == [] then [] else Bytes(content, InOrder(chunks, PartOwner(ps[0]))) + PartBytes(chunks, content, ps[1..])
  }

  // ----------------------------------------------------------- the count check

  lemma OwnedSplit(chunks: Chunks, ps: set<PartId>, p: PartId)
    requires p in ps
    ensures OwnedByParts(chunks, ps) == Owned(chunks, PartOwner(p)) + OwnedByParts(chunks, ps - {p})
    ensures |OwnedByParts(chunks, ps)| == |Owned(chunks, PartOwner(p))| + |OwnedByParts(chunks, ps - {p})|
  {
    var mine, rest := Owned(chunks, PartOwner(p)), OwnedByParts(chunks, ps - {p});
    assert OwnedByParts(chunks, ps) == mine + rest;
    assert mine !! rest;
  }

  lemma {:induction false} OwnedByPartsSize(parts: Parts, chunks: Chunks, ps: set<PartId>)
    requires forall p | p in ps :: p in parts && |Owned(chunks, PartOwner(p))| == parts[p].chunkCount
    ensures |OwnedByParts(chunks, ps)| == DeclaredChunks(parts, ps)
    decreases |ps|
  {
    if ps == {} {
      assert OwnedByParts(chunks, ps) == {};
    } else {
      var p :| p in ps;
      OwnedByPartsSize(parts, chunks, ps - {p});
      Sums.SumSplit(ps, ChunkCountOf(parts), p);
      OwnedSplit(chunks, ps, p);
    }
  }

  /** All chunks of an open session's finished parts are committed, so an assembly moves them all. */
  lemma MovedAll(db: Db, u: UploadId)
    requires NoHoles(db) && u in db.uploads && db.uploads[u].state == InProgress
    ensures Moved(db.parts, db.chunks, u) == OwnedByParts(db.chunks, CompleteParts(db.parts, u))
    ensures forall p | p in CompleteParts(db.parts, u) :: AllCommitted(db.chunks, PartOwner(p), db.parts[p].chunkCount)
  {
    forall p | p in CompleteParts(db.parts, u) ensures AllCommitted(db.chunks, PartOwner(p), db.parts[p].chunkCount) {
      assert Settled(db, PartOwner(p));
    }
    forall c | c in OwnedByParts(db.chunks, CompleteParts(db.parts, u)) ensures db.chunks[c].state == Committed {
      assert c in Owned(db.chunks, PartOwner(db.chunks[c].owner.pid));
    }
  }

  /**
   The re-parented-count check cannot fail: in a reachable state an assembly that passes
   the earlier checks commits.
   */
  lemma CountCheckHolds(db: Db, u: UploadId, o: ObjectId, manifest: seq<PartRef>)
    requires CatalogInv(db) && AssemblyAccepted(db, u, o, manifest)
    ensures AssemblyCommits(db, u, o, manifest)
  {
    MovedAll(db, u);
    OwnedByPartsSize(db.parts, db.chunks, CompleteParts(db.parts, u));
  }

  // --------------------------------------------------------- what is assembled

  /** Re-parented chunks are not touched again by the swap and the clean-up that follow. */
  lemma AssembledChunks(db: Db, u: UploadId, o: ObjectId, size: nat, count: nat)
    requires CatalogInv(db) && u in db.uploads && o !in db.objects
    ensures var d := DiscardLeftovers(Show(Assemble(db, u, o), o, size, count), u);
      && Owned(d.chunks, ObjectOwner(o)) == Moved(db.parts, db.chunks, u)
      && forall c | c in Moved(db.parts, db.chunks, u) :: d.chunks[c].index == NewIndex(db.parts, db.chunks, u, c)
  {
    AssembleCatalog(db, u, o);
    KeptByDiscard(Show(Assemble(db, u, o), o, size, count), u, o);
    assert Show(Assemble(db, u, o), o, size, count).chunks == Renumbered(db.parts, db.chunks, u, o);
  }

  lemma KeptByDiscard(db: Db, u: UploadId, o: ObjectId)
    ensures Owned(DiscardLeftovers(db, u).chunks, ObjectOwner(o)) == Owned(db.chunks, ObjectOwner(o))
    ensures forall c | c in Owned(db.chunks, ObjectOwner(o)) :: DiscardLeftovers(db, u).chunks[c] == db.chunks[c]
  {
  }

  /** Joining two listings when everything in the first precedes everything in the second. */
  lemma JoinListings<T>(less: (T, T) -> bool, s: set<T>, a: seq<T>, t: set<T>, b: seq<T>)
    requires IsListing(less, s, a) && IsListing(less, t, b)
    requires forall x, y | x in s && y in t :: less(x, y)
    ensures IsListing(less, s + t, a + b)
  {
    forall i, j | 0 <= i < j < |a + b| ensures less((a + b)[i], (a + b)[j]) {
      if j < |a| {
        assert less(a[i], a[j]);
      } else if i < |a| {
        assert a[i] in a && b[j - |a|] in b;
      } else {
        assert less(b[i - |a|], b[j - |a|]);
      }
    }
  }

  lemma PartListing(parts: Parts, chunks: Chunks, p: PartId)
    requires Positioned(chunks) && p in parts
    ensures IsListing(ByPartThenIndex(parts, chunks), Owned(chunks, PartOwner(p)), InOrder(chunks, PartOwner(p)))
  {
    var l := InOrder(chunks, PartOwner(p));
    forall i, j | 0 <= i < j < |l| ensures ByPartThenIndex(parts, chunks)(l[i], l[j]) {
      assert l[i] in l && l[j] in l;
      assert ByIndex(chunks)(l[i], l[j]);
    }
  }

  lemma FlattenSplit(chunks: Chunks, ps: seq<PartId>)
    requires ps != []
    ensures OwnedByParts(chunks, Elements(ps)) ==
            Owned(chunks, PartOwner(ps[0])) + OwnedByParts(chunks, Elements(ps[1..]))
  {
    assert Elements(ps) == {ps[0]} + Elements(ps[1..]);
  }

  /** Chunks of an earlier part precede chunks of a later one. */
  lemma EarlierPart(parts: Parts, chunks: Chunks, ps: seq<PartId>, x: ChunkId, y: ChunkId)
    requires forall i | 0 <= i < |ps| :: ps[i] in parts
    requires forall i, j | 0 <= i < j < |ps| :: parts[ps[i]].number < parts[ps[j]].number
    requires ps != []
    requires x in Owned(chunks, PartOwner(ps[0])) && y in OwnedByParts(chunks, Elements(ps[1..]))
    ensures ByPartThenIndex(parts, chunks)(x, y)
  {
    var j :| 0 <= j < |ps[1..]| && ps[1..][j] == chunks[y].owner.pid;
    assert ps[j + 1] == chunks[y].owner.pid && parts[ps[0]].number < parts[ps[j + 1]].number;
    assert PartNumberOf(parts, chunks, x) < PartNumberOf(parts, chunks, y);
  }

  /** Part after part, the chunks of finished parts are in assembly order. */
  lemma {:induction false} FlattenListing(parts: Parts, chunks: Chunks, ps: seq<PartId>)
    requires Positioned(chunks)
    requires forall i | 0 <= i < |ps| :: ps[i] in parts
    requires forall i, j | 0 <= i < j < |ps| :: parts[ps[i]].number < parts[ps[j]].number
    ensures IsListing(ByPartThenIndex(parts, chunks), OwnedByParts(chunks, Elements(ps)), Flatten(chunks, ps))
    decreases |ps|
  {
    if ps != [] {
      var less := ByPartThenIndex(parts, chunks);
      var mine, others := Owned(chunks, PartOwner(ps[0])), OwnedByParts(chunks, Elements(ps[1..]));
      FlattenListing(parts, chunks, ps[1..]);
      PartListing(parts, chunks, ps[0]);
      FlattenSplit(chunks, ps);
      forall x, y | x in mine && y in others ensures less(x, y) {
        EarlierPart(parts, chunks, ps, x, y);
      }
      JoinListings(less, mine, InOrder(chunks, PartOwner(ps[0])), others, Flatten(chunks, ps[1..]));
    }
  }

  /** Listing by position and listing by the order itself are the same. */
  lemma RankListing<T>(less: (T, T) -> bool, order: (T, T) -> bool, s: set<T>, l: seq<T>)
    requires StrictTotal(less, s) && IsListing(order, s, l)
    requires forall x, y | x in s && y in s && order(x, y) :: Rank(less, s, x) < Rank(less, s, y)
    ensures IsListing(less, s, l)
  {
    forall i, j | 0 <= i < j < |l| ensures less(l[i], l[j]) {
      assert l[i] in l && l[j] in l && order(l[i], l[j]);
      RankMonotone(less, s, l[i], l[j]);
    }
  }

  /** The assembled object's chunks, listed by their new index, are in assembly order. */
  lemma AssembledListing(db: Db, u: UploadId, o: ObjectId, manifest: seq<PartRef>)
    requires CatalogInv(db) && AssemblyCommits(db, u, o, manifest)
    requires Positioned(CompleteMultipart(db, u, o, manifest).chunks)
    ensures var s, d := Moved(db.parts, db.chunks, u), CompleteMultipart(db, u, o, manifest);
      && Owned(d.chunks, ObjectOwner(o)) == s
      && StrictTotal(ByPartThenIndex(db.parts, db.chunks), s)
      && IsListing(ByPartThenIndex(db.parts, db.chunks), s, InOrder(d.chunks, ObjectOwner(o)))
      && forall c | c in s :: d.chunks[c].index == NewIndex(db.parts, db.chunks, u, c)
  {
    var ps := CompleteParts(db.parts, u);
    AssembledChunks(db, u, o, DeclaredSize(db.parts, ps), DeclaredChunks(db.parts, ps));
    MovedOrdered(db, u);
    RenumberedListing(db.parts, db.chunks, u, o, CompleteMultipart(db, u, o, manifest).chunks);
  }

  lemma RenumberedListing(parts: Parts, chunks: Chunks, u: UploadId, o: ObjectId, renumbered: Chunks)
    requires StrictTotal(ByPartThenIndex(parts, chunks), Moved(parts, chunks, u))
    requires Positioned(renumbered) && Owned(renumbered, ObjectOwner(o)) == Moved(parts, chunks, u)
    requires forall c | c in Moved(parts, chunks, u) :: renumbered[c].index == NewIndex(parts, chunks, u, c)
    ensures IsListing(ByPartThenIndex(parts, chunks), Moved(parts, chunks, u), InOrder(renumbered, ObjectOwner(o)))
  {
    RankListing(ByPartThenIndex(parts, chunks), ByIndex(renumbered), Moved(parts, chunks, u),
                InOrder(renumbered, ObjectOwner(o)));
  }

  /** The assembled object's chunk indices are exactly 0, 1, ... , chunkCount - 1. */
  lemma ContiguousIndices(db: Db, u: UploadId, o: ObjectId, manifest: seq<PartRef>)
    requires CatalogInv(db) && AssemblyAccepted(db, u, o, manifest)
    ensures var d := CompleteMultipart(db, u, o, manifest);
      && Positioned(d.chunks)
      && var l := InOrder(d.chunks, ObjectOwner(o));
         && o in d.objects && |l| == d.objects[o].chunkCount
         && forall i | 0 <= i < |l| :: l[i] in d.chunks && d.chunks[l[i]].index == i
  {
    var d, s := CompleteMultipart(db, u, o, manifest), Moved(db.parts, db.chunks, u);
    AssembledPositions(db, u, o, manifest);
    AssembledListing(db, u, o, manifest);
    var l := InOrder(d.chunks, ObjectOwner(o));
    ListingIndices(ByPartThenIndex(db.parts, db.chunks), s, d.chunks, l);
  }

  /** Numbering by position makes index and place in the listing agree. */
  lemma ListingIndices(less: (ChunkId, ChunkId) -> bool, s: set<ChunkId>, chunks: Chunks, l: seq<ChunkId>)
    requires StrictTotal(less, s) && IsListing(less, s, l)
    requires forall c | c in s :: c in chunks && chunks[c].index == Rank(less, s, c)
    ensures |l| == |s|
    ensures forall i | 0 <= i < |l| :: l[i] in chunks && chunks[l[i]].index == i
  {
    ListingSize(less, s, l);
    forall i | 0 <= i < |l| ensures l[i] in chunks && chunks[l[i]].index == i {
      ListingRank(less, s, l, i);
    }
  }

  lemma AssembledPositions(db: Db, u: UploadId, o: ObjectId, manifest: seq<PartRef>)
    requires CatalogInv(db) && AssemblyAccepted(db, u, o, manifest)
    ensures AssemblyCommits(db, u, o, manifest)
    ensures Positioned(db.chunks) && Numbered(db.parts, u) && Positioned(CompleteMultipart(db, u, o, manifest).chunks)
  {
    CountCheckHolds(db, u, o, manifest);
    CatalogOrdered(db, u);
    CompleteMultipartCatalog(db, u, o, manifest);
    CatalogOrdered(CompleteMultipart(db, u, o, manifest), u);
  }

  /** Renumbering keeps the order: the object's chunks are the parts' chunks, part after part. */
  lemma AssembledOrder(db: Db, u: UploadId, o: ObjectId, manifest: seq<PartRef>)
    requires CatalogInv(db) && AssemblyCommits(db, u, o, manifest)
    requires Positioned(db.chunks) && Numbered(db.parts, u)
    requires Positioned(CompleteMultipart(db, u, o, manifest).chunks)
    ensures InOrder(CompleteMultipart(db, u, o, manifest).chunks, ObjectOwner(o)) ==
            Flatten(db.chunks, PartsInOrder(db.parts, u))
  {
    AssembledListing(db, u, o, manifest);
    MovedAll(db, u);
    PartsListed(db.parts, db.chunks, u);
    ListingUnique(ByPartThenIndex(db.parts, db.chunks), Moved(db.parts, db.chunks, u),
                  InOrder(CompleteMultipart(db, u, o, manifest).chunks, ObjectOwner(o)),
                  Flatten(db.chunks, PartsInOrder(db.parts, u)));
  }

  lemma PartsListed(parts: Parts, chunks: Chunks, u: UploadId)
    requires Positioned(chunks) && Numbered(parts, u)
    ensures IsListing(ByPartThenIndex(parts, chunks), OwnedByParts(chunks, CompleteParts(parts, u)),
                      Flatten(chunks, PartsInOrder(parts, u)))
  {
    var ps := PartsInOrder(parts, u);
    assert forall i | 0 <= i < |ps| :: ps[i] in ps;
    assert forall i, j | 0 <= i < j < |ps| :: ByNumber(parts)(ps[i], ps[j]);
    FlattenListing(parts, chunks, ps);
    assert Elements(ps) == CompleteParts(parts, u);
  }

  lemma {:induction false} BytesAppend<T>(content: ChunkId -> seq<T>, a: seq<ChunkId>, b: seq<ChunkId>)
    ensures Bytes(content, a + b) == Bytes(content, a) + Bytes(content, b)
  {
    if a == [] {
      assert a + b == b;
    } else {
      assert (a + b)[1..] == a[1..] + b;
      BytesAppend(content, a[1..], b);
    }
  }

  lemma {:induction false} FlattenBytes<T>(chunks: Chunks, content: ChunkId -> seq<T>, ps: seq<PartId>)
    requires Positioned(chunks)
    ensures Bytes(content, Flatten(chunks, ps)) == PartBytes(chunks, content, ps)
    decreases |ps|
  {
    if ps != [] {
      BytesAppend(content, InOrder(chunks, PartOwner(ps[0])), Flatten(chunks, ps[1..]));
      FlattenBytes(chunks, content, ps[1..]);
    }
  }

  /**
   Assembly preserves meaning: whatever the chunks hold, the object's bytes are the parts'
   bytes in part-number order.
   */
  lemma AssembledBytes<T>(db: Db, u: UploadId, o: ObjectId, manifest: seq<PartRef>, content: ChunkId -> seq<T>)
    requires CatalogInv(db) && AssemblyAccepted(db, u, o, manifest)
    ensures var d := CompleteMultipart(db, u, o, manifest);
      && Positioned(db.chunks) && Positioned(d.chunks) && Numbered(db.parts, u)
      && Bytes(content, InOrder(d.chunks, ObjectOwner(o))) == PartBytes(db.chunks, content, PartsInOrder(db.parts, u))
  {
    AssembledPositions(db, u, o, manifest);
    AssembledOrder(db, u, o, manifest);
    FlattenBytes(db.chunks, content, PartsInOrder(db.parts, u));
  }

  /** The assembled object takes the session's key, the parts' total size and chunk count; the session is closed. */
  lemma AssembledRow(db: Db, u: UploadId, o: ObjectId, manifest: seq<PartRef>)
    requires AssemblyCommits(db, u, o, manifest)
    ensures var d, ps := CompleteMultipart(db, u, o, manifest), CompleteParts(db.parts, u);
      && o in d.objects
      && d.objects[o] ==
         ObjectRow(db.uploads[u].key, Complete, DeclaredSize(db.parts, ps), DeclaredChunks(db.parts, ps))
      && u in d.uploads && d.uploads[u].state == Completed
  {
  }

  // ------------------------------------------------------------------- the manifest

  /** The manifest entry agrees with the part. */
  predicate Names(ref: PartRef, row: PartRow) {
    ref.number == row.number && (ref.etag != "" ==> TrimQuotes(ref.etag) == row.etag)
  }

  /** The manifest names exactly these parts, in this order. */
  ghost predicate NamesAll(parts: Parts, l: seq<PartId>, manifest: seq<PartRef>) {
    |manifest| == |l| && forall i | 0 <= i < |l| :: l[i] in parts && Names(manifest[i], parts[l[i]])
  }

  lemma PartRanks(parts: Parts, u: UploadId)
    requires Numbered(parts, u)
    ensures var l, ps := PartsInOrder(parts, u), CompleteParts(parts, u);
      |l| == |ps| && forall i | 0 <= i < |l| :: l[i] in ps && Rank(ByNumber(parts), ps, l[i]) == i
  {
    var ps, l, less := CompleteParts(parts, u), PartsInOrder(parts, u), ByNumber(parts);
    ListingSize(less, ps, l);
    forall i | 0 <= i < |l| ensures l[i] in ps && Rank(less, ps, l[i]) == i {
      ListingRank(less, ps, l, i);
    }
  }

  lemma ManifestNames(db: Db, u: UploadId, manifest: seq<PartRef>)
    requires Numbered(db.parts, u) && manifest != [] && ManifestMatches(db, u, manifest)
    ensures NamesAll(db.parts, PartsInOrder(db.parts, u), manifest)
  {
    PartRanks(db.parts, u);
  }

  lemma NamesMatch(db: Db, u: UploadId, manifest: seq<PartRef>)
    requires Numbered(db.parts, u) && NamesAll(db.parts, PartsInOrder(db.parts, u), manifest)
    ensures ManifestMatches(db, u, manifest)
  {
    var ps, l, less := CompleteParts(db.parts, u), PartsInOrder(db.parts, u), ByNumber(db.parts);
    PartRanks(db.parts, u);
    forall p | p in ps ensures Rank(less, ps, p) < |manifest| && Names(manifest[Rank(less, ps, p)], db.parts[p]) {
      assert p in l;
      var i :| 0 <= i < |l| && l[i] == p;
    }
  }

  /** A client manifest passes exactly when it lists the finished parts, each once, in number order. */
  lemma ManifestExact(db: Db, u: UploadId, manifest: seq<PartRef>)
    requires Numbered(db.parts, u) && manifest != []
    ensures ManifestMatches(db, u, manifest) <==> NamesAll(db.parts, PartsInOrder(db.parts, u), manifest)
  {
    if ManifestMatches(db, u, manifest) {
      ManifestNames(db, u, manifest);
    }
    if NamesAll(db.parts, PartsInOrder(db.parts, u), manifest) {
      NamesMatch(db, u, manifest);
    }
  }

  lemma {:induction false} TrimRightPlain(s: string)
    requires '"' !in s
    ensures TrimLeft(s) == s && TrimRight(s) == s
  {
    if s != [] {
      assert s[0] in s && s[|s| - 1] in s;
    }
  }

  /** An ETag matches whether or not the client quotes it. */
  lemma QuotedEtag(e: string)
    requires '"' !in e
    ensures TrimQuotes("\"" + e + "\"") == e && TrimQuotes(e) == e
  {
    TrimRightPlain(e);
    var quoted := "\"" + e + "\"";
    assert quoted[1..] == e + "\"";
    if e == "" {
      assert quoted[1..][1..] == "";
    } else {
      assert quoted[1..][0] == e[0] && e[0] in e;
      assert TrimLeft(quoted) == e + "\"";
      assert (e + "\"")[..|e|] == e;
    }
  }

  ghost predicate Quotes(s: string) {
    forall i | 0 <= i < |s| :: s[i] == '"'
  }

  lemma {:induction false} TrimLeftMeans(s: string) returns (front: string)
    ensures s == front + TrimLeft(s) && Quotes(front) && (TrimLeft(s) != "" ==> TrimLeft(s)[0] != '"')
  {
    front := "";
    if s != [] && s[0] == '"' {
      front := TrimLeftMeans(s[1..]);
      front := [s[0]] + front;
    }
  }

  lemma {:induction false} TrimRightMeans(s: string) returns (back: string)
    ensures s == TrimRight(s) + back && Quotes(back)
    ensures TrimRight(s) != "" ==> TrimRight(s)[|TrimRight(s)| - 1] != '"' && TrimRight(s)[0] == s[0]
  {
    back := "";
    if s != [] && s[|s| - 1] == '"' {
      back := TrimRightMeans(s[..|s| - 1]);
      back := back + [s[|s| - 1]];
    }
  }

  /** What is compared of a client's ETag: all of it but the quotes at either end. */
  lemma TrimMeans(s: string) returns (front: string, back: string)
    ensures s == front + TrimQuotes(s) + back && Quotes(front) && Quotes(back)
    ensures var r := TrimQuotes(s); r != "" ==> r[0] != '"' && r[|r| - 1] != '"'
  {
    front := TrimLeftMeans(s);
    back := TrimRightMeans(TrimLeft(s));
  }

  /** The order spelled out: an owner's chunks by rising index. */
  lemma ChunksByIndex(chunks: Chunks, owner: Owner)
    requires Positioned(chunks)
    ensures var l := InOrder(chunks, owner);
      && (forall c :: c in l <==> c in chunks && chunks[c].owner == owner)
      && forall i, j | 0 <= i < j < |l| :: chunks[l[i]].index < chunks[l[j]].index
  {
    var l := InOrder(chunks, owner);
    forall c ensures c in l <==> c in chunks && chunks[c].owner == owner {
      assert c in l <==> c in Owned(chunks, owner);
    }
    forall i, j | 0 <= i < j < |l| ensures chunks[l[i]].index < chunks[l[j]].index {
      assert ByIndex(chunks)(l[i], l[j]) && l[i] in l && l[j] in l;
    }
  }

  /** A session's finished parts by rising number. */
  lemma PartsByNumber(parts: Parts, u: UploadId)
    requires Numbered(parts, u)
    ensures var ps := PartsInOrder(parts, u);
      && (forall p :: p in ps <==> p in parts && parts[p].upload == u && parts[p].state == PartComplete)
      && forall i, j | 0 <= i < j < |ps| :: parts[ps[i]].number < parts[ps[j]].number
  {
    var ps := PartsInOrder(parts, u);
    forall p ensures p in ps <==> p in parts && parts[p].upload == u && parts[p].state == PartComplete {
      assert p in ps <==> p in CompleteParts(parts, u);
    }
    forall i, j | 0 <= i < j < |ps| ensures parts[ps[i]].number < parts[ps[j]].number {
      assert ByNumber(parts)(ps[i], ps[j]) && ps[i] in ps && ps[j] in ps;
    }
  }
}
