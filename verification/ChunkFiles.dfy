/**
 The chunk file protocol of a storage node: temp file, fsync, verify, rename, directory fsync,
 with any number of concurrent writers and a crash possible between any two steps.

 A file's bytes survive a crash once flushed; until then a crash may leave anything. A directory
 entry written since the last directory fsync may or may not survive: `entries` holds every
 entry a crash could leave behind.
 */
module ChunkFiles {

  type Byte = bv8
  type Bytes = seq<Byte>
  /** A chunk id begins with the name of the leaf directory its file lives in. */
  datatype Id = Id(leaf: nat, rest: nat)

  type Ino = nat
  type WriterId = nat

  datatype Inode = Inode(data: Bytes, flushed: bool)

  datatype Entry = Gone | File(ino: Ino)

  datatype Stage = Copying | Copied | Flushed | Vetted | Renamed

  datatype Writer = Writer(id: Id, ino: Ino, source: Bytes, copied: nat, size: int, sum: string, stage: Stage)

  datatype Disk = Disk(
    inodes: map<Ino, Inode>,
    live: map<Id, Ino>,
    entries: map<Id, set<Entry>>,
    temps: set<Ino>,
    writers: map<WriterId, Writer>)

  datatype Event =
    | OpenTemp(w: WriterId, i: Ino, id: Id, source: Bytes, size: int, sum: string)
    | Append(w: WriterId, n: nat)
    | FinishCopy(w: WriterId)
    | Fsync(w: WriterId)
    | Verify(w: WriterId)
    | Rename(w: WriterId)
    | SyncDir(w: WriterId)
    | Abort(w: WriterId)
    | Remove(id: Id)
    | Crash(pick: map<Id, Entry>, garbled: map<Ino, Bytes>, left: set<Ino>)
    | Restart

  function EntryOf(live: map<Id, Ino>, id: Id): Entry {
    if id in live then File(live[id]) else Gone
  }

  /** Every directory entry a crash could leave for the chunk. */
  function Possible(d: Disk, id: Id): set<Entry> {
    if id in d.entries then d.entries[id] else {EntryOf(d.live, id)}
  }

  predicate At(d: Disk, w: WriterId, s: Stage) {
    w in d.writers && d.writers[w].stage == s && d.writers[w].ino in d.inodes
  }

  function Advance(d: Disk, w: WriterId, s: Stage): Disk
    requires w in d.writers
  {
    d.(writers := d.writers[w := d.writers[w].(stage := s)])
  }

  function DoOpen(d: Disk, w: WriterId, i: Ino, id: Id, source: Bytes, size: int, sum: string): Disk {
    if w in d.writers || i in d.inodes then d
    else
      d.(inodes := d.inodes[i := Inode([], false)], temps := d.temps + {i},
         writers := d.writers[w := Writer(id, i, source, 0, size, sum, Copying)])
  }

  function DoAppend(d: Disk, w: WriterId, n: nat): Disk {
    if !At(d, w, Copying) || d.writers[w].copied + n > |d.writers[w].source| then d
    else
      var r := d.writers[w];
      d.(inodes := d.inodes[r.ino := Inode(r.source[..r.copied + n], false)],
         writers := d.writers[w := r.(copied := r.copied + n)])
  }

  /** The size header is checked before the file is flushed. */
  function DoFinishCopy(d: Disk, w: WriterId): Disk {
    if !At(d, w, Copying) || d.writers[w].copied != |d.writers[w].source| then d
    else if d.writers[w].size >= 0 && d.writers[w].size != d.writers[w].copied then DoAbort(d, w)
    else Advance(d, w, Copied)
  }

  function DoFsync(d: Disk, w: WriterId): Disk {
    if !At(d, w, Copied) then d
    else
      var i := d.writers[w].ino;
      Advance(d.(inodes := d.inodes[i := d.inodes[i].(flushed := true)]), w, Flushed)
  }

  /** The digest is checked before the rename. */
  function DoVerify(hash: Bytes -> string, d: Disk, w: WriterId): Disk {
    if !At(d, w, Flushed) then d
    else
      var r := d.writers[w];
      if r.sum != "" && hash(d.inodes[r.ino].data) != r.sum then DoAbort(d, w)
      else Advance(d, w, Vetted)
  }

  function DoRename(d: Disk, w: WriterId): Disk {
    if !At(d, w, Vetted) then d
    else
      var r := d.writers[w];
      Advance(d, w, Renamed).(
        live := d.live[r.id := r.ino],
        entries := d.entries[r.id := Possible(d, r.id) + {File(r.ino)}],
        temps := d.temps - {r.ino})
  }

  /** After the fsync only the current entries of the whole leaf directory can survive; the write reports success. */
  function DoSyncDir(d: Disk, w: WriterId): Disk {
    if !At(d, w, Renamed) then d
    else
      var leaf := d.writers[w].id.leaf;
      d.(entries := map id | id in d.entries && id.leaf != leaf :: d.entries[id], writers := d.writers - {w})
  }

  /** An error removes the temp file; after the rename there is none left to remove. */
  function DoAbort(d: Disk, w: WriterId): Disk {
    if w !in d.writers then d
    else d.(temps := d.temps - {d.writers[w].ino}, writers := d.writers - {w})
  }

  function DoRemove(d: Disk, id: Id): Disk {
    if id !in d.live then d
    else d.(live := d.live - {id}, entries := d.entries[id := Possible(d, id) + {Gone}])
  }

  /** The entry that survives: the picked one if it could, else the current one. */
  function Surviving(d: Disk, pick: map<Id, Entry>, id: Id): Entry {
    if id in pick && pick[id] in Possible(d, id) then pick[id] else EntryOf(d.live, id)
  }

  function Garble(n: Inode, i: Ino, garbled: map<Ino, Bytes>): Inode {
    if n.flushed then n else Inode(if i in garbled then garbled[i] else [], false)
  }

  function DoCrash(d: Disk, pick: map<Id, Entry>, garbled: map<Ino, Bytes>, left: set<Ino>): Disk {
    d.(inodes := map i | i in d.inodes :: Garble(d.inodes[i], i, garbled),
       live := map id | id in d.live.Keys + d.entries.Keys && Surviving(d, pick, id).File? ::
         Surviving(d, pick, id).ino,
       entries := map[],
       temps := d.temps * left,
       writers := map[])
  }

  function Step(hash: Bytes -> string, d: Disk, e: Event): Disk {
    match e
    case OpenTemp(w, i, id, source, size, sum) => DoOpen(d, w, i, id, source, size, sum)
    case Append(w, n) => DoAppend(d, w, n)
    case FinishCopy(w) => DoFinishCopy(d, w)
    case Fsync(w) => DoFsync(d, w)
    case Verify(w) => DoVerify(hash, d, w)
    case Rename(w) => DoRename(d, w)
    case SyncDir(w) => DoSyncDir(d, w)
    case Abort(w) => DoAbort(d, w)
    case Remove(id) => DoRemove(d, id)
    case Crash(pick, garbled, left) => DoCrash(d, pick, garbled, left)
    case Restart => if d.writers == map[] then d.(temps := {}) else d
  }

  function Run(hash: Bytes -> string, d: Disk, events: seq<Event>): Disk
    decreases |events|
  {
    if events == [] then d
    else Step(hash, Run(hash, d, events[..|events| - 1]), events[|events| - 1])
  }

  // ------------------------------------------------------------------- invariant

  /** If a crash could leave this entry under the name, its file is there and flushed. */
  predicate Whole(d: Disk, id: Id, e: Entry) {
    e in Possible(d, id) && e.File? ==> e.ino in d.inodes && d.inodes[e.ino].flushed
  }

  ghost predicate Published(d: Disk) {
    && (forall id: Id, e | e in Possible(d, id) :: Whole(d, id, e))
    && (forall id: Id :: EntryOf(d.live, id) in Possible(d, id))
  }

  /** A writer's temp file is its own, holds what was copied, and is not published early. */
  ghost predicate Tidy(d: Disk, w: WriterId)
    requires w in d.writers
  {
    var r := d.writers[w];
    && r.ino in d.inodes && r.copied <= |r.source| && d.inodes[r.ino].data == r.source[..r.copied]
    && (r.stage != Copying ==> r.copied == |r.source| && (r.size >= 0 ==> r.size == |r.source|))
    && (r.stage.Flushed? || r.stage.Vetted? || r.stage.Renamed? ==> d.inodes[r.ino].flushed)
    && (r.stage != Renamed ==> forall id: Id :: File(r.ino) !in Possible(d, id))
  }

  ghost predicate OwnFiles(d: Disk) {
    && (forall w | w in d.writers :: Tidy(d, w))
    && (forall v, w | v in d.writers && w in d.writers && d.writers[v].ino == d.writers[w].ino :: v == w)
  }

  ghost predicate FileInv(d: Disk) {
    Published(d) && OwnFiles(d)
  }

  // -------------------------------------------------------------- every step keeps it

  /** The names are untouched, and every flushed file is as it was. */
  ghost predicate SameNames(d: Disk, n: Disk) {
    && n.live == d.live && n.entries == d.entries
    && forall i | i in d.inodes && d.inodes[i].flushed :: i in n.inodes && n.inodes[i] == d.inodes[i]
  }

  lemma PublishedFrame(d: Disk, n: Disk)
    requires Published(d) && SameNames(d, n)
    ensures Published(n) && forall id: Id :: Possible(n, id) == Possible(d, id)
  {
    assert forall id: Id :: Possible(n, id) == Possible(d, id);
    forall id: Id, e | e in Possible(n, id) ensures Whole(n, id, e) {
      assert e in Possible(d, id);
      assert Whole(d, id, e);
    }
  }

  /** A file not there yet is under no name. */
  lemma NewInode(d: Disk, i: Ino)
    requires Published(d) && i !in d.inodes
    ensures forall id: Id :: File(i) !in Possible(d, id)
  {
    forall id: Id ensures File(i) !in Possible(d, id) {
      assert File(i) in Possible(d, id) ==> Whole(d, id, File(i));
    }
  }

  lemma OpenKeeps(d: Disk, w: WriterId, i: Ino, id: Id, source: Bytes, size: int, sum: string)
    requires FileInv(d)
    ensures FileInv(DoOpen(d, w, i, id, source, size, sum))
  {
    var n := DoOpen(d, w, i, id, source, size, sum);
    if n != d {
      PublishedFrame(d, n);
      NewInode(d, i);
      forall v | v in n.writers ensures Tidy(n, v) {
        if v in d.writers {
          assert Tidy(d, v);
        }
      }
    }
  }

  /** A file still being copied is under no name, so nothing published changes with it. */
  lemma AppendSameNames(d: Disk, w: WriterId, n: nat)
    requires FileInv(d) && At(d, w, Copying)
    ensures forall i | i in d.inodes && d.inodes[i].flushed && i != d.writers[w].ino ::
      DoAppend(d, w, n).inodes[i] == d.inodes[i]
    ensures forall id: Id :: File(d.writers[w].ino) !in Possible(d, id)
  {
    assert Tidy(d, w);
  }

  lemma AppendPublished(d: Disk, w: WriterId, n: nat)
    requires FileInv(d)
    ensures Published(DoAppend(d, w, n)) && forall id: Id :: Possible(DoAppend(d, w, n), id) == Possible(d, id)
  {
    var next := DoAppend(d, w, n);
    assert forall id: Id :: Possible(next, id) == Possible(d, id);
    if next != d {
      AppendSameNames(d, w, n);
      forall id: Id, e | e in Possible(next, id) ensures Whole(next, id, e) {
        assert e in Possible(d, id);
        assert Whole(d, id, e);
      }
    }
  }

  lemma AppendTidy(d: Disk, w: WriterId, n: nat, v: WriterId)
    requires FileInv(d) && v in d.writers
    ensures v in DoAppend(d, w, n).writers && Tidy(DoAppend(d, w, n), v)
  {
    AppendPublished(d, w, n);
    assert Tidy(d, v);
    if v != w && w in d.writers {
      assert d.writers[v].ino != d.writers[w].ino;
    }
  }

  lemma AppendKeeps(d: Disk, w: WriterId, n: nat)
    requires FileInv(d)
    ensures FileInv(DoAppend(d, w, n))
  {
    var next := DoAppend(d, w, n);
    AppendPublished(d, w, n);
    forall v | v in next.writers ensures Tidy(next, v) {
      AppendTidy(d, w, n, v);
    }
  }

  lemma AbortKeeps(d: Disk, w: WriterId)
    requires FileInv(d)
    ensures FileInv(DoAbort(d, w))
  {
    var n := DoAbort(d, w);
    assert forall k: Id :: Possible(n, k) == Possible(d, k);
    forall v | v in n.writers ensures Tidy(n, v) {
      assert Tidy(d, v);
    }
  }

  lemma FinishCopyKeeps(d: Disk, w: WriterId)
    requires FileInv(d)
    ensures FileInv(DoFinishCopy(d, w))
  {
    AbortKeeps(d, w);
    var n := DoFinishCopy(d, w);
    assert forall k: Id :: Possible(n, k) == Possible(d, k);
    forall v | v in n.writers ensures Tidy(n, v) {
      assert Tidy(d, v);
    }
  }

  lemma FsyncKeeps(d: Disk, w: WriterId)
    requires FileInv(d)
    ensures FileInv(DoFsync(d, w))
  {
    var n := DoFsync(d, w);
    assert forall k: Id :: Possible(n, k) == Possible(d, k);
    forall v | v in n.writers ensures Tidy(n, v) {
      assert Tidy(d, v);
    }
  }

  lemma VerifyKeeps(hash: Bytes -> string, d: Disk, w: WriterId)
    requires FileInv(d)
    ensures FileInv(DoVerify(hash, d, w))
  {
    var n := DoVerify(hash, d, w);
    if At(d, w, Flushed) && d.writers[w].sum != "" && hash(d.inodes[d.writers[w].ino].data) != d.writers[w].sum {
      AbortKeeps(d, w);
    } else if At(d, w, Flushed) {
      assert forall k: Id :: Possible(n, k) == Possible(d, k);
      forall v | v in n.writers ensures Tidy(n, v) {
        assert Tidy(d, v);
        assert v == w ==> d.writers[w].source[..d.writers[w].copied] == d.writers[w].source;
      }
    }
  }

  lemma RenameKeeps(d: Disk, w: WriterId)
    requires FileInv(d)
    ensures FileInv(DoRename(d, w))
  {
    var n := DoRename(d, w);
    if At(d, w, Vetted) {
      var r := d.writers[w];
      assert Tidy(d, w);
      assert r.source[..r.copied] == r.source;
      assert forall k: Id :: Possible(n, k) == if k == r.id then Possible(d, k) + {File(r.ino)} else Possible(d, k);
      forall v | v in n.writers ensures Tidy(n, v) {
        assert Tidy(d, v);
      }
    }
  }

  lemma SyncDirKeeps(d: Disk, w: WriterId)
    requires FileInv(d)
    ensures FileInv(DoSyncDir(d, w))
  {
    var n := DoSyncDir(d, w);
    assert forall k: Id :: Possible(n, k) <= Possible(d, k);
    forall v | v in n.writers ensures Tidy(n, v) {
      assert Tidy(d, v);
    }
  }

  lemma RemoveKeeps(d: Disk, id: Id)
    requires FileInv(d)
    ensures FileInv(DoRemove(d, id))
  {
    var n := DoRemove(d, id);
    assert forall k: Id :: Possible(n, k) <= Possible(d, k) + {Gone};
    forall v | v in n.writers ensures Tidy(n, v) {
      assert Tidy(d, v);
    }
  }

  /** What a crash leaves under a name is one of the possible entries. */
  lemma CrashLeaves(d: Disk, pick: map<Id, Entry>, garbled: map<Ino, Bytes>, left: set<Ino>, id: Id)
    requires FileInv(d)
    ensures var n := DoCrash(d, pick, garbled, left);
      EntryOf(n.live, id) == Surviving(d, pick, id) && EntryOf(n.live, id) in Possible(d, id)
  {
  }

  lemma CrashKeeps(d: Disk, pick: map<Id, Entry>, garbled: map<Ino, Bytes>, left: set<Ino>)
    requires FileInv(d)
    ensures FileInv(DoCrash(d, pick, garbled, left))
  {
    var n := DoCrash(d, pick, garbled, left);
    forall id: Id, e | e in Possible(n, id) ensures Whole(n, id, e) {
      CrashLeaves(d, pick, garbled, left, id);
      assert Whole(d, id, e);
    }
  }

  lemma StepKeeps(hash: Bytes -> string, d: Disk, e: Event)
    requires FileInv(d)
    ensures FileInv(Step(hash, d, e))
  {
    match e
    case OpenTemp(w, i, id, source, size, sum) => OpenKeeps(d, w, i, id, source, size, sum);
    case Append(w, n) => AppendKeeps(d, w, n);
    case FinishCopy(w) => FinishCopyKeeps(d, w);
    case Fsync(w) => FsyncKeeps(d, w);
    case Verify(w) => VerifyKeeps(hash, d, w);
    case Rename(w) => RenameKeeps(d, w);
    case SyncDir(w) => SyncDirKeeps(d, w);
    case Abort(w) => AbortKeeps(d, w);
    case Remove(id) => RemoveKeeps(d, id);
    case Crash(pick, garbled, left) => CrashKeeps(d, pick, garbled, left);
    case Restart =>
      var n := d.(temps := {});
      assert forall k: Id :: Possible(n, k) == Possible(d, k);
  }

  lemma {:induction false} RunKeeps(hash: Bytes -> string, d: Disk, events: seq<Event>)
    requires FileInv(d)
    ensures FileInv(Run(hash, d, events))
    decreases |events|
  {
    if events != [] {
      RunKeeps(hash, d, events[..|events| - 1]);
      StepKeeps(hash, Run(hash, d, events[..|events| - 1]), events[|events| - 1]);
    }
  }

  // -------------------------------------------------------------------- main results

  datatype Content = Nothing | Holds(bytes: Bytes)

  /** What a reader finds under the chunk's final path. */
  function Read(d: Disk, id: Id): Content {
    if id in d.live && d.live[id] in d.inodes then Holds(d.inodes[d.live[id]].data) else Nothing
  }

  /** The writer's whole source went in and passed the size and digest checks. */
  predicate Checked(hash: Bytes -> string, r: Writer, id: Id, b: Bytes) {
    && r.id == id && r.source == b && r.copied == |b|
    && (r.size >= 0 ==> r.size == |b|) && (r.sum != "" ==> hash(b) == r.sum)
  }

  ghost predicate CheckedBefore(hash: Bytes -> string, d: Disk, events: seq<Event>, id: Id, b: Bytes, k: nat)
    requires k < |events|
  {
    events[k].Verify? && events[k].w in Run(hash, d, events[..k]).writers
    && Checked(hash, Run(hash, d, events[..k]).writers[events[k].w], id, b)
  }

  lemma CheckedStill(hash: Bytes -> string, d: Disk, events: seq<Event>, id: Id, b: Bytes, k: nat)
    requires k < |events| - 1 && CheckedBefore(hash, d, events[..|events| - 1], id, b, k)
    ensures CheckedBefore(hash, d, events, id, b, k)
  {
    assert events[..|events| - 1][..k] == events[..k];
  }

  /** The payload was checked during the run, or by a writer that stood past its check when the run began. */
  ghost predicate Vouched(hash: Bytes -> string, d: Disk, events: seq<Event>, id: Id, b: Bytes) {
    || (exists w | w in d.writers :: d.writers[w].stage == Vetted && d.writers[w].id == id && d.writers[w].source == b)
    || (exists k | 0 <= k < |events| :: CheckedBefore(hash, d, events, id, b, k))
  }

  lemma VouchedStill(hash: Bytes -> string, d: Disk, events: seq<Event>, id: Id, b: Bytes)
    requires events != [] && Vouched(hash, d, events[..|events| - 1], id, b)
    ensures Vouched(hash, d, events, id, b)
  {
    var past := events[..|events| - 1];
    if k :| 0 <= k < |past| && CheckedBefore(hash, d, past, id, b, k) {
      CheckedStill(hash, d, events, id, b, k);
    }
  }

  /** A writer passes its check only with its whole payload copied and acceptable. */
  lemma Vetting(hash: Bytes -> string, d: Disk, e: Event, w: WriterId)
    requires FileInv(d) && At(Step(hash, d, e), w, Vetted) && !At(d, w, Vetted)
    ensures e == Verify(w) && w in d.writers
    ensures var r := Step(hash, d, e).writers[w]; Checked(hash, d.writers[w], r.id, r.source)
  {
    if e.Verify? && e.w in d.writers {
      assert Tidy(d, e.w);
      var r := d.writers[e.w];
      assert r.source[..r.copied] == r.source;
    }
  }

  lemma VettedSame(hash: Bytes -> string, d: Disk, e: Event, w: WriterId)
    requires At(Step(hash, d, e), w, Vetted) && At(d, w, Vetted)
    ensures Step(hash, d, e).writers[w] == d.writers[w]
  {
  }

  lemma {:induction false} VettedOrigin(hash: Bytes -> string, d: Disk, events: seq<Event>, w: WriterId)
    requires FileInv(d) && At(Run(hash, d, events), w, Vetted)
    ensures var r := Run(hash, d, events).writers[w]; Vouched(hash, d, events, r.id, r.source)
    decreases |events|
  {
    if events != [] {
      var past, e := events[..|events| - 1], events[|events| - 1];
      var n := Run(hash, d, past);
      var r := Run(hash, d, events).writers[w];
      RunKeeps(hash, d, past);
      if At(n, w, Vetted) {
        VettedSame(hash, n, e, w);
        VettedOrigin(hash, d, past, w);
        VouchedStill(hash, d, events, r.id, r.source);
      } else {
        Vetting(hash, n, e, w);
        assert CheckedBefore(hash, d, events, r.id, r.source, |events| - 1);
      }
    }
  }

  function ContentOf(d: Disk, e: Entry): Content {
    if e.File? && e.ino in d.inodes then Holds(d.inodes[e.ino].data) else Nothing
  }

  /** A published file never changes. */
  lemma PublishedStays(hash: Bytes -> string, d: Disk, e: Event, id: Id, x: Entry)
    requires FileInv(d) && x in Possible(d, id)
    ensures ContentOf(Step(hash, d, e), x) == ContentOf(d, x)
    ensures x.File? ==> x.ino in Step(hash, d, e).inodes
  {
    assert Whole(d, id, x);
    if (e.Append? || e.Fsync?) && e.w in d.writers {
      assert Tidy(d, e.w);
    }
  }

  /** An entry becomes possible only by a rename or a removal. */
  lemma EntryAppears(hash: Bytes -> string, d: Disk, e: Event, id: Id, x: Entry)
    requires FileInv(d) && x in Possible(Step(hash, d, e), id) && x !in Possible(d, id) && x.File?
    ensures e.Rename? && At(d, e.w, Vetted) && d.writers[e.w].id == id
    ensures ContentOf(Step(hash, d, e), x) == Holds(d.writers[e.w].source)
  {
    if e.Crash? {
      CrashLeaves(d, e.pick, e.garbled, e.left, id);
    }
    if e.Rename? && At(d, e.w, Vetted) {
      assert Tidy(d, e.w);
      var r := d.writers[e.w];
      assert r.source[..r.copied] == r.source;
    }
  }

  /** Where the bytes under a name came from: an entry possible at the start, or a checked payload. */
  ghost predicate Sourced(hash: Bytes -> string, d: Disk, events: seq<Event>, id: Id, b: Bytes) {
    (exists x | x in Possible(d, id) :: ContentOf(d, x) == Holds(b)) || Vouched(hash, d, events, id, b)
  }

  lemma {:induction false} EntryOrigin(hash: Bytes -> string, d: Disk, events: seq<Event>, id: Id, x: Entry)
    requires FileInv(d) && x in Possible(Run(hash, d, events), id) && x.File?
    ensures var c := ContentOf(Run(hash, d, events), x); c.Holds? && Sourced(hash, d, events, id, c.bytes)
    decreases |events|
  {
    RunKeeps(hash, d, events);
    assert Whole(Run(hash, d, events), id, x);
    if events != [] {
      var past, e := events[..|events| - 1], events[|events| - 1];
      var n := Run(hash, d, past);
      RunKeeps(hash, d, past);
      if x in Possible(n, id) {
        PublishedStays(hash, n, e, id, x);
        EntryOrigin(hash, d, past, id, x);
        if Vouched(hash, d, past, id, ContentOf(n, x).bytes) {
          VouchedStill(hash, d, events, id, ContentOf(n, x).bytes);
        }
      } else {
        EntryAppears(hash, n, e, id, x);
        VettedOrigin(hash, d, past, e.w);
        VouchedStill(hash, d, events, id, n.writers[e.w].source);
      }
    }
  }

  /**
   Crash atomicity: after any run, with any number of crashes anywhere in it, the final path holds
   nothing, what a crash could already have left there at the start, or one whole payload that passed
   every check.
   */
  lemma CrashAtomicity(hash: Bytes -> string, d: Disk, events: seq<Event>, id: Id)
    requires FileInv(d) && Read(Run(hash, d, events), id).Holds?
    ensures Sourced(hash, d, events, id, Read(Run(hash, d, events), id).bytes)
  {
    var n := Run(hash, d, events);
    RunKeeps(hash, d, events);
    EntryOrigin(hash, d, events, id, EntryOf(n.live, id));
  }

  /** Every entry that could survive under the name holds these bytes, flushed. */
  ghost predicate Agreed(d: Disk, id: Id, b: Bytes) {
    forall x | x in Possible(d, id) :: ContentOf(d, x) == Holds(b)
  }

  /** The event puts another file under the name, or takes it away. */
  predicate Replaces(d: Disk, e: Event, id: Id) {
    (e.Rename? && e.w in d.writers && d.writers[e.w].id == id) || e == Remove(id)
  }

  lemma PossibleShrinks(hash: Bytes -> string, d: Disk, e: Event, id: Id)
    requires FileInv(d) && !Replaces(d, e, id)
    ensures Possible(Step(hash, d, e), id) <= Possible(d, id)
  {
    if e.Crash? {
      CrashLeaves(d, e.pick, e.garbled, e.left, id);
    }
  }

  lemma AgreedStays(hash: Bytes -> string, d: Disk, e: Event, id: Id, b: Bytes)
    requires FileInv(d) && Agreed(d, id, b) && !Replaces(d, e, id)
    ensures Agreed(Step(hash, d, e), id, b)
  {
    PossibleShrinks(hash, d, e, id);
    forall x | x in Possible(Step(hash, d, e), id) ensures ContentOf(Step(hash, d, e), x) == Holds(b) {
      PublishedStays(hash, d, e, id, x);
    }
  }

  ghost predicate Unreplaced(hash: Bytes -> string, d: Disk, events: seq<Event>, id: Id)
    decreases |events|
  {
    events != [] ==>
      && Unreplaced(hash, d, events[..|events| - 1], id)
      && !Replaces(Run(hash, d, events[..|events| - 1]), events[|events| - 1], id)
  }

  lemma {:induction false} AgreedForever(hash: Bytes -> string, d: Disk, events: seq<Event>, id: Id, b: Bytes)
    requires FileInv(d) && Agreed(d, id, b) && Unreplaced(hash, d, events, id)
    ensures Agreed(Run(hash, d, events), id, b) && Read(Run(hash, d, events), id) == Holds(b)
    decreases |events|
  {
    RunKeeps(hash, d, events);
    if events != [] {
      var past := events[..|events| - 1];
      RunKeeps(hash, d, past);
      AgreedForever(hash, d, past, id, b);
      AgreedStays(hash, Run(hash, d, past), events[|events| - 1], id, b);
    }
    AgreedRead(Run(hash, d, events), id, b);
  }

  lemma AgreedRead(d: Disk, id: Id, b: Bytes)
    requires FileInv(d) && Agreed(d, id, b)
    ensures Read(d, id) == Holds(b)
  {
    assert EntryOf(d.live, id) in Possible(d, id);
  }

  /**
   Durability of a reported success: once the directory fsync of a write returns, its payload is
   read back after any number of crashes and restarts, until the chunk is replaced or removed.
   */
  lemma SuccessSurvives(hash: Bytes -> string, d: Disk, w: WriterId, events: seq<Event>)
    requires FileInv(d) && At(d, w, Renamed)
    requires d.writers[w].id in d.live && d.live[d.writers[w].id] == d.writers[w].ino
    requires Unreplaced(hash, DoSyncDir(d, w), events, d.writers[w].id)
    ensures Read(Run(hash, DoSyncDir(d, w), events), d.writers[w].id) == Holds(d.writers[w].source)
  {
    assert Tidy(d, w);
    var r := d.writers[w];
    assert r.source[..r.copied] == r.source;
    SyncDirKeeps(d, w);
    AgreedForever(hash, DoSyncDir(d, w), events, r.id, r.source);
  }

  /** After a crash a restart always empties the temp directory, and no published file was in it. */
  lemma RestartClears(hash: Bytes -> string, d: Disk, pick: map<Id, Entry>, garbled: map<Ino, Bytes>, left: set<Ino>)
    ensures Step(hash, DoCrash(d, pick, garbled, left), Restart).temps == {}
    ensures var crashed := DoCrash(d, pick, garbled, left);
      forall id: Id :: Read(Step(hash, crashed, Restart), id) == Read(crashed, id)
  {
  }

  // --------------------------------------------------- a write that finds the chunk there

  /** A write for a chunk that is already there with an acceptable digest reports success at once. */
  predicate FoundExisting(hash: Bytes -> string, d: Disk, id: Id, sum: string) {
    Read(d, id).Holds? && (sum == "" || hash(Read(d, id).bytes) == sum)
  }

  function AfterCrash(d: Disk, id: Id, e: Entry): Content {
    Read(DoCrash(d, map[id := e], map[], {}), id)
  }

  /** The contents a crash could leave under the name. */
  function Contents(d: Disk, id: Id): set<Content> {
    set x | x in Possible(d, id) :: ContentOf(d, x)
  }

  /** The event takes effect on the name: it renames a file in, takes the name away, or syncs its directory. */
  predicate RenamesIn(d: Disk, e: Event, id: Id) {
    e.Rename? && At(d, e.w, Vetted) && d.writers[e.w].id == id
  }

  predicate TakesAway(d: Disk, e: Event, id: Id) {
    e == Remove(id) && id in d.live
  }

  predicate Syncs(d: Disk, e: Event, id: Id) {
    e.SyncDir? && At(d, e.w, Renamed) && d.writers[e.w].id.leaf == id.leaf
  }

  /** What has stood under the name since its last directory fsync or crash, read off the history. */
  function Since(hash: Bytes -> string, d: Disk, events: seq<Event>, id: Id): set<Content>
    decreases |events|
  {
    if events == [] then {Read(d, id)}
    else
      var past, e := events[..|events| - 1], events[|events| - 1];
      var n := Run(hash, d, past);
      if RenamesIn(n, e, id) then Since(hash, d, past, id) + {Holds(n.writers[e.w].source)}
      else if TakesAway(n, e, id) then Since(hash, d, past, id) + {Nothing}
      else if Syncs(n, e, id) || e.Crash? then {Read(Step(hash, n, e), id)}
      else Since(hash, d, past, id)
  }

  lemma ContentsRename(d: Disk, w: WriterId)
    requires FileInv(d) && At(d, w, Vetted)
    ensures var id := d.writers[w].id; Contents(DoRename(d, w), id) == Contents(d, id) + {Holds(d.writers[w].source)}
  {
    var r, n := d.writers[w], DoRename(d, w);
    assert Tidy(d, w);
    assert r.source[..r.copied] == r.source;
    assert forall x :: ContentOf(n, x) == ContentOf(d, x);
    assert ContentOf(d, File(r.ino)) == Holds(r.source);
    assert Possible(n, r.id) == Possible(d, r.id) + {File(r.ino)};
    ImageAdds(x => ContentOf(d, x), Possible(d, r.id), File(r.ino));
  }

  lemma ContentsRemove(d: Disk, id: Id)
    requires id in d.live
    ensures Contents(DoRemove(d, id), id) == Contents(d, id) + {Nothing}
  {
    var n := DoRemove(d, id);
    assert forall x :: ContentOf(n, x) == ContentOf(d, x);
    ImageAdds(x => ContentOf(d, x), Possible(d, id), Gone);
  }

  lemma ImageAdds<X, Y>(f: X -> Y, s: set<X>, x: X)
    ensures (set y | y in s + {x} :: f(y)) == (set y | y in s :: f(y)) + {f(x)}
  {
  }

  lemma ContentsSettled(d: Disk, id: Id)
    requires Possible(d, id) == {EntryOf(d.live, id)}
    ensures Contents(d, id) == {Read(d, id)}
  {
  }

  /** Any other event leaves the possible entries alone. */
  lemma PossibleStays(hash: Bytes -> string, d: Disk, e: Event, id: Id)
    requires !RenamesIn(d, e, id) && !TakesAway(d, e, id) && !Syncs(d, e, id) && !e.Crash?
    ensures Possible(Step(hash, d, e), id) == Possible(d, id)
    ensures EntryOf(Step(hash, d, e).live, id) == EntryOf(d.live, id)
  {
  }

  lemma ContentsStay(hash: Bytes -> string, d: Disk, e: Event, id: Id)
    requires FileInv(d) && Possible(Step(hash, d, e), id) == Possible(d, id)
    ensures Contents(Step(hash, d, e), id) == Contents(d, id)
  {
    forall x | x in Possible(d, id) ensures ContentOf(Step(hash, d, e), x) == ContentOf(d, x) {
      PublishedStays(hash, d, e, id, x);
    }
    SameContents(d, Step(hash, d, e), id);
  }

  lemma SameContents(d: Disk, n: Disk, id: Id)
    requires Possible(n, id) == Possible(d, id) && forall x | x in Possible(d, id) :: ContentOf(n, x) == ContentOf(d, x)
    ensures Contents(n, id) == Contents(d, id)
  {
    assert forall x | x in Possible(d, id) :: ContentOf(n, x) in Contents(d, id) && ContentOf(d, x) in Contents(n, id);
  }

  lemma SyncSettles(hash: Bytes -> string, d: Disk, e: Event, id: Id)
    requires Syncs(d, e, id) || e.Crash?
    ensures var n := Step(hash, d, e); Possible(n, id) == {EntryOf(n.live, id)}
  {
  }

  /** From a disk with nothing outstanding, the history says exactly what a crash could leave. */
  lemma {:induction false} SinceExact(hash: Bytes -> string, d: Disk, events: seq<Event>, id: Id)
    requires FileInv(d) && d.entries == map[]
    ensures Since(hash, d, events, id) == Contents(Run(hash, d, events), id)
    decreases |events|
  {
    if events == [] {
      ContentsSettled(d, id);
    } else {
      var past, e := events[..|events| - 1], events[|events| - 1];
      var n := Run(hash, d, past);
      RunKeeps(hash, d, past);
      SinceExact(hash, d, past, id);
      if RenamesIn(n, e, id) {
        ContentsRename(n, e.w);
      } else if TakesAway(n, e, id) {
        ContentsRemove(n, id);
      } else if Syncs(n, e, id) || e.Crash? {
        SyncSettles(hash, n, e, id);
        ContentsSettled(Step(hash, n, e), id);
      } else {
        PossibleStays(hash, n, e, id);
        ContentsStay(hash, n, e, id);
      }
    }
  }

  /** Some rename or removal of the name has had no directory fsync or crash after it. */
  predicate Outstanding(hash: Bytes -> string, d: Disk, events: seq<Event>, id: Id)
    decreases |events|
  {
    events != [] &&
    var past, e := events[..|events| - 1], events[|events| - 1];
    var n := Run(hash, d, past);
    if RenamesIn(n, e, id) || TakesAway(n, e, id) then true
    else !Syncs(n, e, id) && !e.Crash? && Outstanding(hash, d, past, id)
  }

  /** Another entry is possible only while a rename or removal is outstanding. */
  lemma {:induction false} SettledUnlessOutstanding(hash: Bytes -> string, d: Disk, events: seq<Event>, id: Id)
    requires FileInv(d) && d.entries == map[] && !Outstanding(hash, d, events, id)
    ensures var n := Run(hash, d, events); Possible(n, id) == {EntryOf(n.live, id)}
    ensures Since(hash, d, events, id) == {Read(Run(hash, d, events), id)}
    decreases |events|
  {
    if events != [] {
      var past, e := events[..|events| - 1], events[|events| - 1];
      var n := Run(hash, d, past);
      RunKeeps(hash, d, past);
      if Syncs(n, e, id) || e.Crash? {
        SyncSettles(hash, n, e, id);
      } else {
        SettledUnlessOutstanding(hash, d, past, id);
        PossibleStays(hash, n, e, id);
      }
    }
    SinceExact(hash, d, events, id);
    ContentsSettled(Run(hash, d, events), id);
  }

  lemma RunOne(hash: Bytes -> string, d: Disk, e: Event)
    ensures Run(hash, d, [e]) == Step(hash, d, e)
  {
    assert [e][..0] == [];
    assert Run(hash, d, []) == d;
  }

  lemma CrashReveals(hash: Bytes -> string, d: Disk, id: Id, x: Entry) returns (more: seq<Event>)
    requires FileInv(d) && x in Possible(d, id)
    ensures Unreplaced(hash, d, more, id) && Read(Run(hash, d, more), id) == ContentOf(d, x)
  {
    var e := Crash(map[id := x], map[], {});
    more := [e];
    RunOne(hash, d, e);
    assert more[..0] == [];
    assert Unreplaced(hash, d, [], id);
    CrashLeaves(d, e.pick, e.garbled, e.left, id);
    assert Whole(d, id, x);
  }

  /**
   A success reported for a chunk found in place survives every crash until the chunk is replaced, exactly
   when everything that has stood under the name since its last directory fsync holds the same bytes.
   */
  lemma ExistingDurableIff(hash: Bytes -> string, d: Disk, events: seq<Event>, id: Id, sum: string)
    requires FileInv(d) && d.entries == map[] && FoundExisting(hash, Run(hash, d, events), id, sum)
    ensures var n := Run(hash, d, events);
      (forall more | Unreplaced(hash, n, more, id) :: Read(Run(hash, n, more), id) == Read(n, id)) <==>
      Since(hash, d, events, id) == {Read(n, id)}
  {
    var n := Run(hash, d, events);
    RunKeeps(hash, d, events);
    SinceExact(hash, d, events, id);
    if Contents(n, id) == {Read(n, id)} {
      assert forall x | x in Possible(n, id) :: ContentOf(n, x) in Contents(n, id);
      forall more | Unreplaced(hash, n, more, id) ensures Read(Run(hash, n, more), id) == Read(n, id) {
        AgreedForever(hash, n, more, id, Read(n, id).bytes);
      }
    } else {
      var x := OtherContent(n, id);
      var more := CrashReveals(hash, n, id, x);
    }
  }

  lemma OtherContent(d: Disk, id: Id) returns (x: Entry)
    requires FileInv(d) && Contents(d, id) != {Read(d, id)}
    ensures x in Possible(d, id) && ContentOf(d, x) != Read(d, id)
  {
    var live := EntryOf(d.live, id);
    assert live in Possible(d, id) && ContentOf(d, live) == Read(d, id);
    assert Read(d, id) in Contents(d, id);
    var c :| c in Contents(d, id) && c != Read(d, id);
    x :| x in Possible(d, id) && ContentOf(d, x) == c;
  }

  /** In particular it survives when no rename or removal of the name is outstanding. */
  lemma SettledSuccessSurvives(hash: Bytes -> string, d: Disk, events: seq<Event>, more: seq<Event>, id: Id,
                               sum: string)
    requires FileInv(d) && d.entries == map[] && FoundExisting(hash, Run(hash, d, events), id, sum)
    requires !Outstanding(hash, d, events, id) && Unreplaced(hash, Run(hash, d, events), more, id)
    ensures Read(Run(hash, Run(hash, d, events), more), id) == Read(Run(hash, d, events), id)
  {
    SettledUnlessOutstanding(hash, d, events, id);
    ExistingDurableIff(hash, d, events, id, sum);
  }

  /**
   Between one writer's rename and its directory fsync, a second write of the same chunk reports
   success for a file that a crash can still undo.
   */
  lemma FoundButNotDurable(hash: Bytes -> string, d: Disk, w: WriterId)
    requires FileInv(d) && At(d, w, Vetted) && Possible(d, d.writers[w].id) == {Gone}
    ensures var n, id := DoRename(d, w), d.writers[w].id;
      FoundExisting(hash, n, id, "") && AfterCrash(n, id, Gone) == Nothing
  {
    var n, id := DoRename(d, w), d.writers[w].id;
    RenameKeeps(d, w);
    CrashLeaves(n, map[id := Gone], map[], {}, id);
    assert Gone in Possible(n, id);
  }

  const FreshDisk := Disk(map[], map[], map[], {}, map[])

  /** A write of one byte to a fresh disk, up to the digest check. */
  function OneByteVetted(hash: Bytes -> string): Disk {
    var begun := DoOpen(FreshDisk, 0, 0, Id(0, 7), [1], -1, "");
    var copied := DoFinishCopy(DoAppend(begun, 0, 1), 0);
    DoVerify(hash, DoFsync(copied, 0), 0)
  }

  /** That write, renamed into place and found by a retry that reports success, then lost in a crash. */
  lemma RetriedWriteLost(hash: Bytes -> string)
    ensures var d := DoRename(OneByteVetted(hash), 0);
      FoundExisting(hash, d, Id(0, 7), hash([1])) && AfterCrash(d, Id(0, 7), Gone) == Nothing
  {
    var d := DoRename(OneByteVetted(hash), 0);
    assert d.inodes[0].data == [1] by {
      assert [1][..1] == [1];
    }
    assert Gone in Possible(d, Id(0, 7));
  }

  // ------------------------------------------------------------------- one whole write

  /** The copy in any pieces, then flush, check, rename and sync. */
  function Appends(w: WriterId, cuts: seq<nat>): seq<Event> {
    seq(|cuts|, i requires 0 <= i < |cuts| => Append(w, cuts[i]))
  }

  function Total(cuts: seq<nat>): nat {
    if cuts == [] then 0 else Total(cuts[..|cuts| - 1]) + cuts[|cuts| - 1]
  }

  /** An open writer that has copied the first `n` bytes, on a disk otherwise as before. */
  function Opened(d: Disk, w: WriterId, i: Ino, r: Writer, n: nat): Disk
    requires n <= |r.source|
  {
    d.(inodes := d.inodes[i := Inode(r.source[..n], false)], temps := d.temps + {i},
       writers := d.writers[w := r.(ino := i, copied := n, stage := Copying)])
  }

  lemma {:induction false} CopyOver(hash: Bytes -> string, d: Disk, w: WriterId, i: Ino, r: Writer, cuts: seq<nat>)
    requires Total(cuts) <= |r.source|
    ensures Run(hash, Opened(d, w, i, r, 0), Appends(w, cuts)) == Opened(d, w, i, r, Total(cuts))
    decreases |cuts|
  {
    var start, events := Opened(d, w, i, r, 0), Appends(w, cuts);
    if cuts != [] {
      var rest, last := cuts[..|cuts| - 1], cuts[|cuts| - 1];
      assert events[..|events| - 1] == Appends(w, rest);
      CopyOver(hash, d, w, i, r, rest);
      AppendOver(d, w, i, r, Total(rest), last);
    }
  }

  lemma AppendOver(d: Disk, w: WriterId, i: Ino, r: Writer, n: nat, m: nat)
    requires n + m <= |r.source|
    ensures DoAppend(Opened(d, w, i, r, n), w, m) == Opened(d, w, i, r, n + m)
  {
    var from, to := Opened(d, w, i, r, n), Opened(d, w, i, r, n + m);
    assert DoAppend(from, w, m).inodes == to.inodes && DoAppend(from, w, m).writers == to.writers;
  }

  /** What the size header and the digest header say of the payload. */
  predicate Acceptable(hash: Bytes -> string, b: Bytes, size: int, sum: string) {
    (size < 0 || size == |b|) && (sum == "" || hash(b) == sum)
  }

  function Finishing(hash: Bytes -> string, d: Disk, w: WriterId): Disk {
    DoSyncDir(DoRename(DoVerify(hash, DoFsync(DoFinishCopy(d, w), w), w), w), w)
  }

  /**
   A write that nobody interrupts, whatever pieces it is copied in: with an acceptable payload the chunk reads as
   that payload and only its own entry can survive a crash; otherwise the chunk is as it was. Either way the temp
   file and the writer are gone and every other chunk is untouched.
   */
  lemma WriteOutcome(hash: Bytes -> string, d: Disk, w: WriterId, i: Ino, id: Id, source: Bytes, size: int,
                     sum: string, cuts: seq<nat>, other: Id)
    requires w !in d.writers && i !in d.inodes && i !in d.temps && Total(cuts) == |source| && other != id
    requires forall x: Id | x in d.live :: d.live[x] in d.inodes
    ensures var copied := Run(hash, DoOpen(d, w, i, id, source, size, sum), Appends(w, cuts));
      var n := Finishing(hash, copied, w);
      && n.temps == d.temps && n.writers == d.writers && Read(n, other) == Read(d, other)
      && (if Acceptable(hash, source, size, sum)
          then Read(n, id) == Holds(source) && Possible(n, id) == {File(i)}
          else Read(n, id) == Read(d, id) && Possible(n, id) == Possible(d, id))
  {
    var r := Writer(id, i, source, 0, size, sum, Copying);
    OpenOver(d, w, r);
    CopyOver(hash, d, w, i, r, cuts);
    FinishOver(hash, d, w, r);
    FinishReads(hash, d, Finishing(hash, Opened(d, w, i, r, |source|), w), r, other);
  }

  lemma OpenOver(d: Disk, w: WriterId, r: Writer)
    requires w !in d.writers && r.ino !in d.inodes && r.copied == 0 && r.stage == Copying
    ensures DoOpen(d, w, r.ino, r.id, r.source, r.size, r.sum) == Opened(d, w, r.ino, r, 0)
  {
  }

  /** What readers and crashes make of the names and files such a write leaves. */
  lemma FinishReads(hash: Bytes -> string, d: Disk, n: Disk, r: Writer, other: Id)
    requires r.ino !in d.inodes && other != r.id && forall x: Id | x in d.live :: d.live[x] in d.inodes
    requires r.ino in n.inodes && n.inodes == d.inodes[r.ino := n.inodes[r.ino]]
    requires if Acceptable(hash, r.source, r.size, r.sum)
             then n.live == d.live[r.id := r.ino] && r.id !in n.entries && n.inodes[r.ino].data == r.source
             else n.live == d.live && n.entries == d.entries
    ensures Read(n, other) == Read(d, other)
    ensures if Acceptable(hash, r.source, r.size, r.sum)
            then Read(n, r.id) == Holds(r.source) && Possible(n, r.id) == {File(r.ino)}
            else Read(n, r.id) == Read(d, r.id) && Possible(n, r.id) == Possible(d, r.id)
  {
  }

  /** The writer with its file flushed, at the given stage. */
  function Staged(d: Disk, w: WriterId, r: Writer, s: Stage): Disk {
    d.(inodes := d.inodes[r.ino := Inode(r.source, true)], temps := d.temps + {r.ino},
       writers := d.writers[w := r.(copied := |r.source|, stage := s)])
  }

  lemma FlushOver(d: Disk, w: WriterId, r: Writer)
    requires w !in d.writers && r.ino !in d.inodes && r.ino !in d.temps
    ensures var n := DoFsync(DoFinishCopy(Opened(d, w, r.ino, r, |r.source|), w), w);
      n == if r.size < 0 || r.size == |r.source| then Staged(d, w, r, Flushed)
           else d.(inodes := d.inodes[r.ino := Inode(r.source, false)])
  {
    assert r.source[..|r.source|] == r.source;
    var open := Opened(d, w, r.ino, r, |r.source|);
    if r.size < 0 || r.size == |r.source| {
      SyncOver(d, w, r);
    } else {
      assert open.writers - {w} == d.writers;
      DropOver(d, w, r, open);
    }
  }

  lemma SyncOver(d: Disk, w: WriterId, r: Writer)
    requires r.size < 0 || r.size == |r.source|
    ensures DoFsync(DoFinishCopy(Opened(d, w, r.ino, r, |r.source|), w), w) == Staged(d, w, r, Flushed)
  {
    assert r.source[..|r.source|] == r.source;
    var n := DoFsync(DoFinishCopy(Opened(d, w, r.ino, r, |r.source|), w), w);
    assert n.writers == Staged(d, w, r, Flushed).writers;
  }

  lemma DropOver(d: Disk, w: WriterId, r: Writer, open: Disk)
    requires w !in d.writers && r.ino !in d.temps
    requires open.temps == d.temps + {r.ino} && open.live == d.live && open.entries == d.entries
    requires w in open.writers && open.writers[w].ino == r.ino && open.writers - {w} == d.writers
    ensures DoAbort(open, w) == d.(inodes := open.inodes)
  {
    assert open.temps - {r.ino} == d.temps;
  }

  lemma VetOver(hash: Bytes -> string, d: Disk, w: WriterId, r: Writer)
    requires w !in d.writers && r.ino !in d.temps
    ensures DoVerify(hash, Staged(d, w, r, Flushed), w) ==
      if r.sum == "" || hash(r.source) == r.sum then Staged(d, w, r, Vetted)
      else d.(inodes := d.inodes[r.ino := Inode(r.source, true)])
  {
    var staged := Staged(d, w, r, Flushed);
    if r.sum == "" || hash(r.source) == r.sum {
      assert DoVerify(hash, staged, w).writers == Staged(d, w, r, Vetted).writers;
    } else {
      assert staged.writers - {w} == d.writers;
      DropOver(d, w, r, staged);
    }
  }

  lemma PublishOver(d: Disk, w: WriterId, r: Writer)
    requires w !in d.writers && r.ino !in d.temps
    ensures var n := DoSyncDir(DoRename(Staged(d, w, r, Vetted), w), w);
      && n.live == d.live[r.id := r.ino] && n.inodes == d.inodes[r.ino := Inode(r.source, true)]
      && n.temps == d.temps && n.writers == d.writers && r.id !in n.entries
  {
    var n := DoSyncDir(DoRename(Staged(d, w, r, Vetted), w), w);
    assert n.temps == d.temps;
    assert n.writers == d.writers;
  }

  /** What the last steps make of a fully copied file. */
  lemma FinishOver(hash: Bytes -> string, d: Disk, w: WriterId, r: Writer)
    requires w !in d.writers && r.ino !in d.inodes && r.ino !in d.temps
    ensures var n := Finishing(hash, Opened(d, w, r.ino, r, |r.source|), w);
      && n.temps == d.temps && n.writers == d.writers
      && r.ino in n.inodes && n.inodes == d.inodes[r.ino := n.inodes[r.ino]]
      && (if Acceptable(hash, r.source, r.size, r.sum)
          then n.live == d.live[r.id := r.ino] && r.id !in n.entries && n.inodes[r.ino].data == r.source
          else n.live == d.live && n.entries == d.entries)
  {
    FlushOver(d, w, r);
    VetOver(hash, d, w, r);
    PublishOver(d, w, r);
  }

  /** A removal hides the chunk at once, and until its directory is synced a crash may bring back what was there. */
  lemma RemoveOutcome(d: Disk, id: Id, other: Id)
    requires id in d.live && other != id
    ensures var n := DoRemove(d, id);
      && Read(n, id) == Nothing && Possible(n, id) == Possible(d, id) + {Gone}
      && Read(n, other) == Read(d, other) && Possible(n, other) == Possible(d, other)
      && n.inodes == d.inodes && n.temps == d.temps && n.writers == d.writers
  {
    var n := DoRemove(d, id);
    assert other in n.live <==> other in d.live;
    assert other in n.entries <==> other in d.entries;
  }
}
