/** Cutting a byte stream into chunks, however the reader happens to fragment it. */
module Splitting {

  type Byte = bv8
  type Bytes = seq<Byte>

  function Concat(parts: seq<Bytes>): Bytes {
    if parts == [] then [] else parts[0] + Concat(parts[1..])
  }

  lemma {:induction false} ConcatAppend(a: seq<Bytes>, b: seq<Bytes>)
    ensures Concat(a + b) == Concat(a) + Concat(b)
  {
    if a == [] {
      assert a + b == b;
    } else {
      assert (a + b)[1..] == a[1..] + b;
      ConcatAppend(a[1..], b);
    }
  }

  lemma ConcatSnoc(a: seq<Bytes>, x: Bytes)
    ensures Concat(a + [x]) == Concat(a) + x
  {
    ConcatAppend(a, [x]);
    assert Concat([x]) == x;
  }

  // -------------------------------------------------------------- the reference

  /** Full chunks of `size` bytes, then what is left over if anything. */
  function Chunks(stream: Bytes, size: nat): (out: seq<Bytes>)
    requires size > 0
    decreases |stream|
  {
    if stream == [] then []
    else if |stream| <= size then [stream]
    else [stream[..size]] + Chunks(stream[size..], size)
  }

  /** The chunks join to the stream, and all but a non-empty last one are full. */
  lemma {:induction false} ChunksJoin(stream: Bytes, size: nat)
    requires size > 0
    ensures Concat(Chunks(stream, size)) == stream
    ensures forall i | 0 <= i < |Chunks(stream, size)| :: 0 < |Chunks(stream, size)[i]| <= size
    ensures forall i | 0 <= i < |Chunks(stream, size)| - 1 :: |Chunks(stream, size)[i]| == size
    decreases |stream|
  {
    if |stream| > size {
      ChunksJoin(stream[size..], size);
      assert stream == stream[..size] + stream[size..];
    }
  }

  /** The first chunk is as much of the stream as fits. */
  lemma ChunksStep(stream: Bytes, size: nat, n: nat)
    requires size > 0 && stream != [] && n == if |stream| < size then |stream| else size
    ensures Chunks(stream, size) == [stream[..n]] + Chunks(stream[n..], size)
  {
    if |stream| <= size {
      assert stream[..n] == stream && stream[n..] == [];
    }
  }

  function PlanChunks(objectSize: int, chunkSize: int): int {
    if chunkSize <= 0 || objectSize <= 0 then 0 else (objectSize + chunkSize - 1) / chunkSize
  }

  /** A stream is cut into exactly the planned number of chunks. */
  lemma {:induction false} ChunksPlanned(stream: Bytes, size: nat)
    requires size > 0
    ensures |Chunks(stream, size)| == PlanChunks(|stream|, size)
    decreases |stream|
  {
    if |stream| > size {
      ChunksPlanned(stream[size..], size);
      PlanStep(|stream|, size);
    } else if stream != [] {
      PlanOne(|stream|, size);
    }
  }

  lemma PlanStep(n: nat, size: nat)
    requires 0 < size < n
    ensures PlanChunks(n, size) == PlanChunks(n - size, size) + 1
  {
    assert (n + size - 1) / size == (n - size + size - 1) / size + 1 by {
      DivShift(n - 1, size);
    }
  }

  lemma DivShift(a: nat, size: nat)
    requires size > 0
    ensures (a + size) / size == a / size + 1
  {
    var q, r := a / size, a % size;
    assert a == q * size + r;
    DivUnique(a + size, size, q + 1, r);
  }

  lemma DivUnique(a: nat, size: nat, q: nat, r: nat)
    requires size > 0 && a == q * size + r && r < size
    ensures a / size == q
  {
    var p := a / size;
    if p < q {
      MulGap(p, q, size);
    } else if p > q {
      MulGap(q, p, size);
    }
  }

  lemma MulGap(p: nat, q: nat, k: nat)
    requires p < q
    ensures p * k + k <= q * k
  {
    assert q * k == p * k + k + (q - p - 1) * k;
  }

  lemma PlanOne(n: nat, size: nat)
    requires 0 < n <= size
    ensures PlanChunks(n, size) == 1
  {
    DivUnique(n + size - 1, size, 1, n - 1);
  }

  // ----------------------------------------------------------------- the reader

  datatype Err = Nil | Eof | UnexpectedEof | Broken

  /**
   An io.Reader over a fixed stream. Each call returns at most the next entry of `cuts` bytes
   (zero is allowed), or whatever fits once the cuts are used up. A stream ends in EOF or, if it
   is broken, in an error; an eager reader reports the end together with the last bytes.
   */
  class Reader {
    var rest: Bytes
    var cuts: seq<nat>
    const clean: bool
    const eager: bool

    constructor (stream: Bytes, cuts: seq<nat>, clean: bool, eager: bool)
      ensures rest == stream && this.clean == clean
    {
      this.rest, this.cuts, this.clean, this.eager := stream, cuts, clean, eager;
    }

    function End(): Err {
      if clean then Eof else Broken
    }

    method Read(buf: array<Byte>, from: nat) returns (n: nat, err: Err)
      requires from < buf.Length
      modifies this, buf
      ensures from + n <= buf.Length && n <= |old(rest)|
      ensures buf[..from] == old(buf[..from]) && buf[from..from + n] == old(rest)[..n] && rest == old(rest)[n..]
      ensures err == Nil || (err == End() && rest == [])
      ensures err == Nil ==> n > 0 || |cuts| < |old(cuts)|
      ensures |cuts| <= |old(cuts)|
      ensures old(rest) == [] && err == Nil ==> |cuts| < |old(cuts)|
    {
      var want := buf.Length - from;
      if cuts != [] {
        if cuts[0] < want {
          want := cuts[0];
        }
        cuts := cuts[1..];
        if want == 0 {
          n, err := 0, Nil;
          assert rest == rest[0..];
          return;
        }
      }
      n := if want < |rest| then want else |rest|;
      var i := 0;
      while i < n
        invariant 0 <= i <= n && rest == old(rest)
        invariant buf[..from] == old(buf[..from]) && buf[from..from + i] == rest[..i]
        modifies buf
      {
        buf[from + i] := rest[i];
        i := i + 1;
      }
      err := if n == 0 || (eager && n == |rest|) then End() else Nil;
      rest := rest[n..];
    }
  }

  /** io.ReadFull: reads until the buffer is full, the stream ends or the reader fails. */
  method ReadFull(r: Reader, buf: array<Byte>) returns (n: nat, err: Err)
    requires buf.Length > 0
    modifies r, buf
    ensures n == if |old(r.rest)| < buf.Length then |old(r.rest)| else buf.Length
    ensures buf[..n] == old(r.rest)[..n] && r.rest == old(r.rest)[n..]
    ensures err ==
      if n == buf.Length then Nil
      else if !r.clean then Broken
      else if n == 0 then Eof
      else UnexpectedEof
  {
    n, err := 0, Nil;
    ghost var all := r.rest;
    while n < buf.Length && err == Nil
      invariant n <= buf.Length && n <= |all| && buf[..n] == all[..n] && r.rest == all[n..]
      invariant err == Nil || (err == r.End() && r.rest == [])
      decreases buf.Length - n, |r.cuts|, err == Nil
    {
      var k;
      ghost var m := n;
      k, err := r.Read(buf, n);
      n := n + k;
      assert buf[..n] == buf[..m] + buf[m..n];
      assert all[..n] == all[..m] + all[m..][..k];
    }
    if n == buf.Length {
      err := Nil;
    } else if n > 0 && err == Eof {
      err := UnexpectedEof;
    }
  }

  // --------------------------------------------------------------- the splitter

  datatype Next = Chunk(index: nat, size: nat) | EndOfStream | TooLarge | Failed

  class Splitter {
    const r: Reader
    const buf: array<Byte>
    const maxTotal: int
    var index: nat
    var totalRead: nat
    var done: bool

    constructor (r: Reader, buf: array<Byte>, maxTotal: int)
      requires buf.Length > 0
      ensures this.r == r && this.buf == buf && this.maxTotal == maxTotal
      ensures index == 0 && totalRead == 0 && !done
    {
      this.r, this.buf, this.maxTotal := r, buf, maxTotal;
      index, totalRead, done := 0, 0, false;
    }

    predicate Exceeds(n: nat) {
      maxTotal > 0 && n > maxTotal
    }

    /** The next chunk is in `buf[..size]` until the following call. */
    method Next() returns (next: Next)
      requires buf.Length > 0
      modifies this, r, buf
      ensures old(done) ==> next == EndOfStream && r.rest == old(r.rest) && done
      ensures !old(done) ==>
        var n := if |old(r.rest)| < buf.Length then |old(r.rest)| else buf.Length;
        next ==
          if n < buf.Length && !r.clean then Failed
          else if n == 0 then EndOfStream
          else if Exceeds(old(totalRead) + n) then TooLarge
          else Chunk(old(index), n)
      ensures next.Chunk? ==>
        && 0 < next.size <= buf.Length && next.size <= |old(r.rest)|
        && buf[..next.size] == old(r.rest)[..next.size] && r.rest == old(r.rest)[next.size..]
        && index == old(index) + 1 && totalRead == old(totalRead) + next.size
        && (next.size < buf.Length ==> r.rest == []) && (done <==> next.size < buf.Length)
      ensures !next.Chunk? ==> done && index == old(index)
    {
      if done {
        return EndOfStream;
      }
      var n, err := ReadFull(r, buf);
      match err {
        case Nil =>
        case Eof =>
          done := true;
          return EndOfStream;
        case UnexpectedEof =>
          done := true;
        case Broken =>
          done := true;
          return Failed;
      }
      totalRead := totalRead + n;
      if maxTotal > 0 && totalRead > maxTotal {
        done := true;
        return TooLarge;
      }
      if n == 0 {
        return EndOfStream;
      }
      next := Chunk(index, n);
      index := index + 1;
    }
  }

  datatype Ending = Finished | OverLimit | ReadError

  /** Whether an object of this size is refused. */
  predicate OverSize(maxTotal: int, size: nat) {
    maxTotal > 0 && size > maxTotal
  }

  /** `out` is what has been split off, `rest` what the reader still holds. */
  ghost predicate SplitOff(stream: Bytes, size: nat, out: seq<Bytes>, taken: nat, rest: Bytes)
    requires size > 0
  {
    && taken <= |stream| && rest == stream[taken..] && Concat(out) == stream[..taken]
    && Chunks(stream, size) == out + Chunks(rest, size)
  }

  lemma SplitMore(stream: Bytes, size: nat, out: seq<Bytes>, taken: nat, rest: Bytes, n: nat)
    requires size > 0 && SplitOff(stream, size, out, taken, rest) && rest != []
    requires n == if |rest| < size then |rest| else size
    ensures SplitOff(stream, size, out + [rest[..n]], taken + n, rest[n..])
  {
    ChunksStep(rest, size, n);
    ConcatSnoc(out, rest[..n]);
    assert stream[..taken + n] == stream[..taken] + rest[..n];
    assert out + ([rest[..n]] + Chunks(rest[n..], size)) == out + [rest[..n]] + Chunks(rest[n..], size);
  }

  lemma SplitDone(stream: Bytes, size: nat, out: seq<Bytes>, taken: nat)
    requires size > 0 && SplitOff(stream, size, out, taken, [])
    ensures taken == |stream| && out == Chunks(stream, size)
  {
  }

  /**
   Drains a splitter. For a stream that ends cleanly the result does not depend on how the reader
   fragmented it: its chunks with indices 0, 1, ..., or a refusal exactly when it is over the limit.
   */
  method SplitAll(stream: Bytes, cuts: seq<nat>, clean: bool, eager: bool, size: nat, maxTotal: int)
      returns (out: seq<Bytes>, indices: seq<nat>, ending: Ending)
    requires size > 0
    ensures clean ==> (ending == OverLimit <==> OverSize(maxTotal, |stream|)) && ending != ReadError
    ensures ending == Finished ==> clean && out == Chunks(stream, size) && |out| == PlanChunks(|stream|, size)
    ensures Concat(out) <= stream
    ensures |indices| == |out| && forall i | 0 <= i < |indices| :: indices[i] == i
  {
    var r := new Reader(stream, cuts, clean, eager);
    var buf := new Byte[size];
    var s := new Splitter(r, buf, maxTotal);
    out, indices := [], [];
    ghost var taken := 0;
    assert Chunks(stream, size) == [] + Chunks(stream, size);
    while true
      invariant fresh(r) && fresh(s) && fresh(buf) && buf.Length == size && s.buf == buf && s.r == r
      invariant r.clean == clean && s.maxTotal == maxTotal
      invariant SplitOff(stream, size, out, taken, r.rest) && taken == s.totalRead && s.index == |out|
      invariant (s.done ==> r.rest == [] && clean) && !OverSize(maxTotal, taken)
      invariant |indices| == |out| && forall i | 0 <= i < |indices| :: indices[i] == i
      decreases |r.rest|, !s.done
    {
      ghost var rest := r.rest;
      var next := s.Next();
      match next {
        case Chunk(index, n) =>
          SplitMore(stream, size, out, taken, rest, n);
          out, indices := out + [buf[..n]], indices + [index];
          taken := taken + n;
        case EndOfStream =>
          SplitDone(stream, size, out, taken);
          ChunksPlanned(stream, size);
          return out, indices, Finished;
        case TooLarge =>
          return out, indices, OverLimit;
        case Failed =>
          return out, indices, ReadError;
      }
    }
  }
}
