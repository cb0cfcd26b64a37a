/** A storage node's usage counters against the files it holds. */
module Usage {
  import opened Sums

  type Byte = bv8
  type Bytes = seq<Byte>
  type Id = nat

  function SizeIn(files: map<Id, Bytes>): Id -> nat {
    (id: Id) => if id in files then |files[id]| else 0
  }

  /** The true number of bytes on disk. */
  ghost function TotalSize(files: map<Id, Bytes>): nat {
    Sum(files.Keys, SizeIn(files))
  }

  function Clamp(x: int): nat {
    if x < 0 then 0 else x
  }

  lemma PutSize(files: map<Id, Bytes>, id: Id, b: Bytes)
    ensures TotalSize(files[id := b]) == TotalSize(files) - SizeIn(files)(id) + |b|
  {
    var after := files[id := b];
    SumSplit(after.Keys, SizeIn(after), id);
    SumSame(after.Keys - {id}, SizeIn(after), SizeIn(files));
    if id in files {
      SumSplit(files.Keys, SizeIn(files), id);
      assert after.Keys - {id} == files.Keys - {id};
    } else {
      assert after.Keys - {id} == files.Keys;
    }
  }

  lemma TakeSize(files: map<Id, Bytes>, id: Id)
    requires id in files
    ensures TotalSize(files - {id}) == TotalSize(files) - |files[id]|
  {
    var after := files - {id};
    SumSplit(files.Keys, SizeIn(files), id);
    SumSame(after.Keys, SizeIn(after), SizeIn(files));
    assert after.Keys == files.Keys - {id};
  }

  // ---------------------------------------------------------------- the reference

  /** `synced` says whether the directory fsync after the rename succeeds. */
  datatype Op = Put(id: Id, b: Bytes, size: int, sum: string, synced: bool) | Del(id: Id)

  datatype Tally = Tally(bytes: nat, chunks: nat)

  const NOTHING := Tally(0, 0)

  function Add(a: Tally, b: Tally): Tally {
    Tally(a.bytes + b.bytes, a.chunks + b.chunks)
  }

  /** What the file under this name comes to. */
  function TallyOf(files: map<Id, Bytes>, id: Id): Tally {
    if id in files then Tally(|files[id]|, 1) else NOTHING
  }

  /** The files, the copies replaced, the payloads left uncounted, and what the zero clamps wrote off. */
  datatype Ledger = Ledger(files: map<Id, Bytes>, replaced: Tally, unsynced: Tally, forgiven: Tally)

  ghost function CountedBytes(l: Ledger): int {
    TotalSize(l.files) + l.replaced.bytes - l.unsynced.bytes + l.forgiven.bytes
  }

  ghost function CountedChunks(l: Ledger): int {
    |l.files| + l.replaced.chunks - l.unsynced.chunks + l.forgiven.chunks
  }

  /** A write stores its payload unless an acceptable copy is there or a check fails. */
  predicate Stores(hash: Bytes -> string, files: map<Id, Bytes>, id: Id, b: Bytes, size: int, sum: string) {
    && !(id in files && (sum == "" || hash(files[id]) == sum))
    && (size >= 0 ==> size == |b|) && (sum != "" ==> hash(b) == sum)
  }

  /** A delete that finds less on the counters than it takes off has the difference written off. */
  ghost function Enter(hash: Bytes -> string, l: Ledger, op: Op): Ledger {
    match op
    case Del(id) =>
      var t := TallyOf(l.files, id);
      var off := Tally(Short(t.bytes, CountedBytes(l)), Short(t.chunks, CountedChunks(l)));
      l.(files := l.files - {id}, forgiven := Add(l.forgiven, off))
    case Put(id, b, size, sum, synced) =>
      if !Stores(hash, l.files, id, b, size, sum) then l
      else l.(files := l.files[id := b], replaced := Add(l.replaced, TallyOf(l.files, id)),
              unsynced := Add(l.unsynced, if synced then NOTHING else Tally(|b|, 1)))
  }

  function Short(taken: nat, held: int): nat {
    Clamp(taken - Clamp(held))
  }

  lemma ShortClamp(taken: nat, held: int)
    requires held >= 0
    ensures held - taken + Short(taken, held) == Clamp(held - taken)
    ensures Short(taken, held) == 0 <==> taken <= held
  {
  }

  ghost function EnterAll(hash: Bytes -> string, l: Ledger, ops: seq<Op>): Ledger
    decreases |ops|
  {
    if ops == [] then l else Enter(hash, EnterAll(hash, l, ops[..|ops| - 1]), ops[|ops| - 1])
  }

  ghost function Opened(existing: map<Id, Bytes>): Ledger {
    Ledger(existing, NOTHING, NOTHING, NOTHING)
  }

  /** The books balance: the counters are not negative, and no more was written off than was left uncounted. */
  ghost predicate Balanced(l: Ledger) {
    && CountedBytes(l) >= 0 && l.forgiven.bytes <= l.unsynced.bytes
    && CountedChunks(l) >= 0 && l.forgiven.chunks <= l.unsynced.chunks
  }

  /** Taking `t` off clamped counters writes off no more than was left uncounted. */
  lemma WriteOff(total: nat, t: nat, over: nat, under: nat, forgiven: nat)
    requires t <= total && total + over - under + forgiven >= 0 && forgiven <= under
    ensures var f := forgiven + Short(t, total + over - under + forgiven);
      total - t + over - under + f >= 0 && f <= under
  {
  }

  lemma DelTally(files: map<Id, Bytes>, id: Id)
    ensures TallyOf(files, id).bytes <= TotalSize(files) && TallyOf(files, id).chunks <= |files|
    ensures TotalSize(files - {id}) == TotalSize(files) - TallyOf(files, id).bytes
    ensures |files - {id}| == |files| - TallyOf(files, id).chunks
  {
    if id in files {
      TakeSize(files, id);
      assert (files - {id}).Keys == files.Keys - {id};
    } else {
      assert files - {id} == files;
    }
  }

  lemma PutTally(files: map<Id, Bytes>, id: Id, b: Bytes)
    ensures TotalSize(files[id := b]) == TotalSize(files) - TallyOf(files, id).bytes + |b|
    ensures |files[id := b]| == |files| - TallyOf(files, id).chunks + 1
  {
    PutSize(files, id, b);
    assert files[id := b].Keys == files.Keys + {id};
  }

  lemma EnterPut(hash: Bytes -> string, l: Ledger, op: Op)
    requires op.Put? && Stores(hash, l.files, op.id, op.b, op.size, op.sum)
    ensures var next := Enter(hash, l, op);
      && CountedBytes(next) == CountedBytes(l) + (if op.synced then |op.b| else 0)
      && CountedChunks(next) == CountedChunks(l) + if op.synced then 1 else 0
  {
    PutTally(l.files, op.id, op.b);
  }

  lemma EnterDelBytes(hash: Bytes -> string, l: Ledger, id: Id)
    requires CountedBytes(l) >= 0
    ensures CountedBytes(Enter(hash, l, Del(id))) == Clamp(CountedBytes(l) - TallyOf(l.files, id).bytes)
  {
    DelTally(l.files, id);
    ShortClamp(TallyOf(l.files, id).bytes, CountedBytes(l));
  }

  lemma EnterDelChunks(hash: Bytes -> string, l: Ledger, id: Id)
    requires CountedChunks(l) >= 0
    ensures CountedChunks(Enter(hash, l, Del(id))) == Clamp(CountedChunks(l) - TallyOf(l.files, id).chunks)
  {
    DelTally(l.files, id);
    ShortClamp(TallyOf(l.files, id).chunks, CountedChunks(l));
  }

  lemma DelBalanced(hash: Bytes -> string, l: Ledger, id: Id)
    requires Balanced(l)
    ensures Balanced(Enter(hash, l, Del(id)))
  {
    var t := TallyOf(l.files, id);
    DelTally(l.files, id);
    EnterDelBytes(hash, l, id);
    EnterDelChunks(hash, l, id);
    WriteOff(TotalSize(l.files), t.bytes, l.replaced.bytes, l.unsynced.bytes, l.forgiven.bytes);
    WriteOff(|l.files|, t.chunks, l.replaced.chunks, l.unsynced.chunks, l.forgiven.chunks);
  }

  lemma EnterBalanced(hash: Bytes -> string, l: Ledger, op: Op)
    requires Balanced(l)
    ensures Balanced(Enter(hash, l, op))
  {
    match op
    case Del(id) => DelBalanced(hash, l, id);
    case Put(id, b, size, sum, synced) =>
      if Stores(hash, l.files, id, b, size, sum) {
        EnterPut(hash, l, op);
      }
  }

  lemma {:induction false} RunBalanced(hash: Bytes -> string, existing: map<Id, Bytes>, ops: seq<Op>)
    ensures Balanced(EnterAll(hash, Opened(existing), ops))
    decreases |ops|
  {
    if ops != [] {
      RunBalanced(hash, existing, ops[..|ops| - 1]);
      EnterBalanced(hash, EnterAll(hash, Opened(existing), ops[..|ops| - 1]), ops[|ops| - 1]);
    }
  }

  lemma {:induction false} NothingUnsynced(hash: Bytes -> string, existing: map<Id, Bytes>, ops: seq<Op>)
    requires forall op | op in ops && op.Put? :: op.synced
    ensures EnterAll(hash, Opened(existing), ops).unsynced == NOTHING
    decreases |ops|
  {
    if ops != [] {
      assert ops[|ops| - 1] in ops;
      NothingUnsynced(hash, existing, ops[..|ops| - 1]);
    }
  }

  /**
   When every directory fsync succeeds nothing is left uncounted, no clamp fires, and usage is never
   under-reported.
   */
  lemma SyncedExact(hash: Bytes -> string, existing: map<Id, Bytes>, ops: seq<Op>)
    requires forall op | op in ops && op.Put? :: op.synced
    ensures var l := EnterAll(hash, Opened(existing), ops);
      l.unsynced == NOTHING && l.forgiven == NOTHING && CountedBytes(l) >= TotalSize(l.files)
        && CountedChunks(l) >= |l.files|
  {
    RunBalanced(hash, existing, ops);
    NothingUnsynced(hash, existing, ops);
  }

  // -------------------------------------------------------------------- the store

  datatype Outcome = Stored | AlreadyExisted | Rejected | NotSynced

  class ChunkStore {
    var files: map<Id, Bytes>
    var usedBytes: int
    var chunkCount: int

    predicate Valid()
      reads this
    {
      usedBytes >= 0 && chunkCount >= 0
    }

    /** By how much the counters exceed the truth. */
    ghost function ByteDrift(): int
      reads this
    {
      usedBytes - TotalSize(files)
    }

    ghost function ChunkDrift(): int
      reads this
    {
      chunkCount - |files|
    }

    /** A store opened on existing files counts them once. */
    constructor (existing: map<Id, Bytes>)
      ensures files == existing && Valid() && ByteDrift() == ChunkDrift() == 0
    {
      files := existing;
      new;
      Scan();
    }

    /** Rebuilds the counters from the directory. */
    method Scan()
      modifies this
      ensures files == old(files) && Valid() && ByteDrift() == ChunkDrift() == 0
    {
      var bytes, count, todo := 0, 0, files.Keys;
      while todo != {}
        invariant files == old(files) && todo <= files.Keys
        invariant bytes + Sum(todo, SizeIn(files)) == TotalSize(files) && count + |todo| == |files.Keys|
        decreases |todo|
      {
        var id :| id in todo;
        SumSplit(todo, SizeIn(files), id);
        bytes, count, todo := bytes + |files[id]|, count + 1, todo - {id};
      }
      usedBytes, chunkCount := bytes, count;
    }

    method AddUsage(bytes: int, chunks: int)
      modifies this`usedBytes, this`chunkCount
      ensures usedBytes == Clamp(old(usedBytes) + bytes) && chunkCount == Clamp(old(chunkCount) + chunks)
    {
      usedBytes := usedBytes + bytes;
      if usedBytes < 0 {
        usedBytes := 0;
      }
      chunkCount := chunkCount + chunks;
      if chunkCount < 0 {
        chunkCount := 0;
      }
    }

    /** A stored write drifts up by the copy it replaced; an unsynced one also down by its payload. */
    method Write(hash: Bytes -> string, id: Id, b: Bytes, size: int, sum: string, synced: bool) returns (r: Outcome)
      requires Valid()
      modifies this
      ensures r.AlreadyExisted? <==> id in old(files) && (sum == "" || hash(old(files)[id]) == sum)
      ensures r.Rejected? <==>
        && !(id in old(files) && (sum == "" || hash(old(files)[id]) == sum))
        && ((size >= 0 && size != |b|) || (sum != "" && hash(b) != sum))
      ensures r.Stored? || r.NotSynced? <==> Stores(hash, old(files), id, b, size, sum)
      ensures r.NotSynced? ==> !synced
      ensures r.Stored? ==> synced
      ensures files == if r.Stored? || r.NotSynced? then old(files)[id := b] else old(files)
      ensures Valid() && usedBytes == old(usedBytes) + (if r.Stored? then |b| else 0)
      ensures chunkCount == old(chunkCount) + if r.Stored? then 1 else 0
      ensures ByteDrift() == old(ByteDrift()) + (if r.Stored? || r.NotSynced? then TallyOf(old(files), id).bytes else 0)
        - (if r.NotSynced? then |b| else 0)
      ensures ChunkDrift() ==
        old(ChunkDrift()) + (if r.Stored? || r.NotSynced? then TallyOf(old(files), id).chunks else 0)
        - (if r.NotSynced? then 1 else 0)
    {
      if id in files && (sum == "" || hash(files[id]) == sum) {
        return AlreadyExisted;
      }
      if (size >= 0 && |b| != size) || (sum != "" && hash(b) != sum) {
        return Rejected;
      }
      PutTally(files, id, b);
      files := files[id := b];
      if !synced {
        return NotSynced;
      }
      AddUsage(|b|, 1);
      return Stored;
    }

    /** Removing a chunk keeps the drift, unless the counters hold less than the chunk and a clamp fires. */
    method Delete(id: Id) returns (existed: bool)
      requires Valid()
      modifies this
      ensures existed <==> id in old(files)
      ensures files == old(files) - {id} && Valid()
      ensures usedBytes == Clamp(old(usedBytes) - TallyOf(old(files), id).bytes)
      ensures chunkCount == Clamp(old(chunkCount) - TallyOf(old(files), id).chunks)
      ensures ByteDrift() == old(ByteDrift()) <==> TallyOf(old(files), id).bytes <= old(usedBytes)
      ensures ByteDrift() == old(ByteDrift()) + Short(TallyOf(old(files), id).bytes, old(usedBytes))
      ensures ChunkDrift() == old(ChunkDrift()) <==> TallyOf(old(files), id).chunks <= old(chunkCount)
      ensures ChunkDrift() == old(ChunkDrift()) + Short(TallyOf(old(files), id).chunks, old(chunkCount))
    {
      if id !in files {
        assert files - {id} == files;
        return false;
      }
      var size := |files[id]|;
      DelTally(files, id);
      ShortClamp(size, usedBytes);
      ShortClamp(1, chunkCount);
      files := files - {id};
      AddUsage(-size, -1);
      return true;
    }

    /** The counters are what the books say. */
    ghost predicate Kept(l: Ledger)
      reads this
    {
      files == l.files && usedBytes == CountedBytes(l) && chunkCount == CountedChunks(l)
    }

    method Perform(hash: Bytes -> string, op: Op, ghost l: Ledger)
      requires Valid() && Kept(l)
      modifies this
      ensures Valid() && Kept(Enter(hash, l, op))
    {
      match op {
        case Put(id, b, size, sum, synced) =>
          if Stores(hash, files, id, b, size, sum) {
            EnterPut(hash, l, op);
          }
          var r := Write(hash, id, b, size, sum, synced);
        case Del(id) =>
          EnterDelBytes(hash, l, id);
          EnterDelChunks(hash, l, id);
          var existed := Delete(id);
      }
    }
  }

  // ------------------------------------------------------------------ whole runs

  /**
   From a fresh scan, over any sequence of writes and deletes, the counters exceed the truth by the copies
   replaced, less the payloads whose directory fsync failed, plus what the zero clamps wrote off; so they
   lie between the truth plus the replaced copies and that less the uncounted payloads.
   */
  method UsageOverRun(hash: Bytes -> string, existing: map<Id, Bytes>, ops: seq<Op>)
      returns (used: int, count: int, files: map<Id, Bytes>)
    ensures var l := EnterAll(hash, Opened(existing), ops);
      && files == l.files && used == CountedBytes(l) && count == CountedChunks(l)
      && 0 <= used
      && TotalSize(files) + l.replaced.bytes - l.unsynced.bytes <= used <= TotalSize(files) + l.replaced.bytes
      && 0 <= count && |files| + l.replaced.chunks - l.unsynced.chunks <= count <= |files| + l.replaced.chunks
    ensures (forall op | op in ops && op.Put? :: op.synced) ==>
      var l := EnterAll(hash, Opened(existing), ops);
      used == TotalSize(files) + l.replaced.bytes && count == |files| + l.replaced.chunks
  {
    var store := new ChunkStore(existing);
    var i := 0;
    while i < |ops|
      invariant 0 <= i <= |ops| && fresh(store) && store.Valid()
      invariant store.Kept(EnterAll(hash, Opened(existing), ops[..i]))
    {
      assert ops[..i + 1][..i] == ops[..i];
      RunBalanced(hash, existing, ops[..i]);
      store.Perform(hash, ops[i], EnterAll(hash, Opened(existing), ops[..i]));
      i := i + 1;
    }
    assert ops[..i] == ops;
    used, count, files := store.usedBytes, store.chunkCount, store.files;
    RunBalanced(hash, existing, ops);
    if forall op | op in ops && op.Put? :: op.synced {
      SyncedExact(hash, existing, ops);
    }
  }

  /** A failed directory fsync leaves the file in place but uncounted: usage is under-reported. */
  method UnsyncedWriteUnderReports(hash: Bytes -> string) returns (used: int, onDisk: map<Id, Bytes>)
    ensures onDisk == map[7 := [1]] && used == 0 < TotalSize(onDisk)
  {
    var store := new ChunkStore(map[]);
    var r := store.Write(hash, 7, [1], -1, "", false);
    used, onDisk := store.usedBytes, store.files;
  }
}
