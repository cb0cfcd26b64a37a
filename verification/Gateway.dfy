/** The byte path end to end: what is uploaded is what is downloaded, whole or by range. */
module Gateway {
  import opened Splitting
  import opened Ranges
  import opened Fetching

  /** No other bytes have the digest of one of these chunks. */
  ghost predicate Distinctive(hash: Bytes -> string, parts: seq<Bytes>) {
    forall b: Bytes, i | 0 <= i < |parts| && hash(b) == hash(parts[i]) :: b == parts[i]
  }

  // ----------------------------------------------------------------------- upload

  datatype Upload = Uploaded(size: nat, count: nat, etag: string) | TooBig | ClientGone | NotStored

  /** The layout records each chunk's length and digest. */
  ghost predicate Records(hash: Bytes -> string, layout: seq<Placement>, parts: seq<Bytes>) {
    |layout| == |parts| && forall i | 0 <= i < |parts| ::
      layout[i].size == |parts[i]| && layout[i].sum == hash(parts[i])
  }

  lemma UploadMore(hash: Bytes -> string, stream: Bytes, size: nat, parts: seq<Bytes>, total: nat, rest: Bytes, n: nat,
                   layout: seq<Placement>, nodes: seq<NodeId>)
    requires size > 0 && SplitOff(stream, size, parts, total, rest) && rest != []
    requires n == (if |rest| < size then |rest| else size) && Records(hash, layout, parts)
    ensures SplitOff(stream, size, parts + [rest[..n]], total + n, rest[n..])
    ensures Records(hash, layout + [Placement(n, hash(rest[..n]), nodes)], parts + [rest[..n]])
    ensures stream[..total + n] == stream[..total] + rest[..n]
  {
    SplitMore(stream, size, parts, total, rest, n);
  }

  /**
   Splits the body and stores one chunk after another. `targets[i]` lists the nodes that
   acknowledged chunk `i`; an empty list means it could not be stored and ends the upload.
   */
  method StreamUpload(hash: Bytes -> string, stream: Bytes, cuts: seq<nat>, clean: bool, eager: bool, size: nat,
                      maxTotal: int,
                      targets: nat -> seq<NodeId>) returns (r: Upload, layout: seq<Placement>)
    requires size > 0
    ensures r.Uploaded? ==>
      && clean && !OverSize(maxTotal, |stream|) && Records(hash, layout, Chunks(stream, size))
      && r == Uploaded(|stream|, |Chunks(stream, size)|, hash(stream))
      && forall i | 0 <= i < |layout| :: layout[i].nodes == targets(i)
    ensures
      (clean && !OverSize(maxTotal, |stream|) && forall i: nat | i < |Chunks(stream, size)| :: targets(i) != []) ==>
        r.Uploaded?
    ensures r == TooBig ==> OverSize(maxTotal, |stream|)
    ensures r == ClientGone ==> !clean
    ensures r == NotStored ==> |layout| < |Chunks(stream, size)| && targets(|layout|) == []
    ensures |layout| <= |Chunks(stream, size)| && Records(hash, layout, Chunks(stream, size)[..|layout|])
  {
    var reader := new Reader(stream, cuts, clean, eager);
    var buf := new Byte[size];
    var s := new Splitter(reader, buf, maxTotal);
    layout := [];
    var total, count := 0, 0;
    var hashed: Bytes := [];
    ghost var parts: seq<Bytes> := [];
    assert Chunks(stream, size) == [] + Chunks(stream, size);
    while true
      invariant fresh(reader) && fresh(s) && fresh(buf) && buf.Length == size && s.buf == buf && s.r == reader
      invariant reader.clean == clean && s.maxTotal == maxTotal
      invariant SplitOff(stream, size, parts, total, reader.rest) && total == s.totalRead && hashed == stream[..total]
      invariant (s.done ==> reader.rest == [] && clean) && !OverSize(maxTotal, total)
      invariant count == |layout| == s.index && Records(hash, layout, parts)
      invariant forall i | 0 <= i < |layout| :: layout[i].nodes == targets(i)
      decreases |reader.rest|, !s.done
    {
      ghost var rest := reader.rest;
      var next := s.Next();
      match next {
        case EndOfStream =>
          SplitDone(stream, size, parts, total);
          assert stream[..total] == stream;
          return Uploaded(total, count, hash(hashed)), layout;
        case TooLarge =>
          return TooBig, layout;
        case Failed =>
          return ClientGone, layout;
        case Chunk(index, n) =>
          var data := buf[..n];
          if targets(index) == [] {
            return NotStored, layout;
          }
          assert data == rest[..n];
          UploadMore(hash, stream, size, parts, total, rest, n, layout, targets(index));
          parts := parts + [data];
          layout := layout + [Placement(n, hash(data), targets(index))];
          hashed := hashed + data;
          total, count := total + n, count + 1;
      }
    }
  }

  // --------------------------------------------------------------------- download

  /** What the nodes answer for each chunk, and when the client hangs up. */
  datatype Weather = Weather(answers: seq<seq<Answer>>, cancelled: seq<seq<bool>>)

  ghost predicate Covers(w: Weather, layout: seq<Placement>) {
    && |w.answers| == |w.cancelled| == |layout|
    && forall i | 0 <= i < |layout| :: |w.answers[i]| == |w.cancelled[i]| == |layout[i].nodes|
  }

  /** Every chunk has a replica that serves good bytes, and nobody hangs up. */
  ghost predicate Fair(hash: Bytes -> string, w: Weather, layout: seq<Placement>)
    requires Covers(w, layout)
  {
    forall i | 0 <= i < |layout| ::
      && (exists g :: 0 <= g < |w.answers[i]| && Judge(hash, layout[i], w.answers[i][g]) == Fine)
      && (forall j | 0 <= j < |w.cancelled[i]| :: !w.cancelled[i][j])
  }

  lemma FairStops(hash: Bytes -> string, w: Weather, layout: seq<Placement>, i: nat)
    requires Covers(w, layout) && Fair(hash, w, layout) && i < |layout|
    ensures var k := FirstStop(hash, layout[i], w.answers[i], w.cancelled[i], 0);
      k < |w.answers[i]| && Judge(hash, layout[i], w.answers[i][k]) == Fine
  {
    var g :| 0 <= g < |w.answers[i]| && Judge(hash, layout[i], w.answers[i][g]) == Fine;
    GoodReplicaSuffices(hash, layout[i], w.answers[i], w.cancelled[i], g);
  }

  lemma CutPrefix(parts: seq<Bytes>, spans: seq<Span>, i: nat)
    requires Fits(parts, spans) && i <= |spans|
    ensures Fits(parts, spans[..i]) && Cut(parts, spans[..i]) <= Cut(parts, spans)
    decreases |spans| - i
  {
    if i == |spans| {
      assert spans[..i] == spans;
    } else {
      CutPrefix(parts, spans, i + 1);
      assert spans[..i + 1][..i] == spans[..i];
    }
  }

  /** Fetches one chunk of the layout: its own bytes, or none. */
  method FetchSpan(hash: Bytes -> string, layout: seq<Placement>, w: Weather, c: nat, spare: array<Byte>,
                   ghost parts: seq<Bytes>)
      returns (got: bool, buf: array<Byte>)
    requires Distinctive(hash, parts) && Records(hash, layout, parts) && Covers(w, layout) && c < |layout|
    modifies spare
    ensures buf == spare || fresh(buf)
    ensures got ==> layout[c].size <= buf.Length && buf[..layout[c].size] == parts[c]
    ensures Fair(hash, w, layout) ==> got
  {
    if Fair(hash, w, layout) {
      FairStops(hash, w, layout, c);
    }
    var r, filled, reports := Fetch(hash, layout[c], w.answers[c], w.cancelled[c], spare);
    return r.Data?, filled;
  }

  /**
   Writes the spans in order, each chunk verified before any of it is forwarded. Whatever the
   nodes answer, the client receives a prefix of the true bytes, and all of them on success.
   */
  method StreamDownload(hash: Bytes -> string, layout: seq<Placement>, w: Weather, spans: seq<Span>,
                        ghost parts: seq<Bytes>)
      returns (ok: bool, body: Bytes)
    requires Distinctive(hash, parts) && Records(hash, layout, parts) && Covers(w, layout) && Fits(parts, spans)
    ensures body <= Cut(parts, spans) && (ok ==> body == Cut(parts, spans))
    ensures Fair(hash, w, layout) ==> ok
  {
    body := [];
    var buf := new Byte[0];
    var i := 0;
    while i < |spans|
      invariant 0 <= i <= |spans| && fresh(buf)
      invariant Fits(parts, spans[..i]) && body == Cut(parts, spans[..i])
    {
      CutPrefix(parts, spans, i);
      var c := spans[i].chunk;
      var got, filled := FetchSpan(hash, layout, w, c, buf, parts);
      if !got {
        return false, body;
      }
      var data := filled[..layout[c].size];
      CutSnoc(parts, spans[..i], spans[i]);
      assert spans[..i + 1] == spans[..i] + [spans[i]];
      body := body + data[spans[i].from..spans[i].to];
      buf := filled;
      i := i + 1;
    }
    assert spans[..i] == spans;
    ok := true;
  }

  // ------------------------------------------------------------------ one GET request

  datatype Response = Response(status: nat, contentLength: int, body: Bytes, ok: bool)

  /** What the client should get for a Range header against these bytes (section 4.4 of RFC 7233). */
  ghost function Answered(header: string, whole: Bytes): (int, Bytes)
  {
    var p := ParseRange(header, |whole|);
    ParseInBounds(header, |whole|);
    match p
    case Range(a, b) => (206, whole[a..b + 1])
    case Unsatisfiable => (416, [])
    case Ignorable => (200, whole)
  }

  /** A range is honoured only when the recorded size agrees with the chunks. */
  method GetObject(hash: Bytes -> string, header: string, size: nat, layout: seq<Placement>, w: Weather,
                   ghost parts: seq<Bytes>)
      returns (r: Response)
    requires Distinctive(hash, parts) && Records(hash, layout, parts) && Covers(w, layout)
    ensures size == |Concat(parts)| ==>
      var (status, expected) := Answered(header, Concat(parts));
      && r.status == status && r.body <= expected
      && (r.ok ==> r.body == expected && (status != 416 ==> r.contentLength == |expected|))
      && (Fair(hash, w, layout) ==> r.ok)
    ensures r.status == 200 ==> r.body <= Concat(parts) && (r.ok ==> r.body == Concat(parts))
    ensures size != |Concat(parts)| ==> r.status in {200, 416}
    ensures r.status == 416 <==> ParseRange(header, size) == Unsatisfiable
    ensures r.status == 416 ==> r.ok && r.body == [] && r.contentLength == 0
    ensures r.status == 206 <==> ParseRange(header, size).Range? && size == |Concat(parts)|
    ensures r.status == 200 ==> r.contentLength == size
  {
    var sizes := seq(|layout|, i requires 0 <= i < |layout| => layout[i].size);
    assert sizes == Sizes(parts);
    var spans := AllChunks(sizes, parts);
    var status, length := 200, size as int;
    if header != "" {
      var summed := ObjectSize(sizes, parts);
      ParseInBounds(header, size);
      match ParseRange(header, size) {
        case Range(a, b) =>
          if summed == size {
            spans := SelectChunks(sizes, a, b, parts);
            status, length := 206, b - a + 1;
          }
        case Unsatisfiable =>
          return Response(416, 0, [], true);
        case Ignorable =>
      }
    }
    var ok, body := StreamDownload(hash, layout, w, spans, parts);
    r := Response(status, length, body, ok);
  }

  /** What every node answers for every chunk, with nobody hanging up. */
  function Asked(layout: seq<Placement>, serve: (nat, NodeId) -> Answer): (w: Weather)
    ensures Covers(w, layout)
    ensures forall i, j | 0 <= i < |layout| && 0 <= j < |layout[i].nodes| ::
      w.answers[i][j] == serve(i, layout[i].nodes[j]) && !w.cancelled[i][j]
  {
    Weather(
      seq(|layout|, i requires 0 <= i < |layout| =>
        seq(|layout[i].nodes|, j requires 0 <= j < |layout[i].nodes| => serve(i, layout[i].nodes[j]))),
      seq(|layout|, i requires 0 <= i < |layout| => seq(|layout[i].nodes|, j => false)))
  }

  /** Some node that acknowledged the chunk still serves its bytes, in any number of messages. */
  ghost predicate StillServed(serve: (nat, NodeId) -> Answer, i: nat, nodes: seq<NodeId>, data: Bytes) {
    exists j :: 0 <= j < |nodes| && serve(i, nodes[j]).Stream? && serve(i, nodes[j]).end == CleanEnd
      && Concat(serve(i, nodes[j]).messages) == data
  }

  lemma ServedIsFair(hash: Bytes -> string, layout: seq<Placement>, parts: seq<Bytes>, serve: (nat, NodeId) -> Answer)
    requires Records(hash, layout, parts)
    requires forall i | 0 <= i < |parts| :: StillServed(serve, i, layout[i].nodes, parts[i])
    ensures Fair(hash, Asked(layout, serve), layout)
  {
    var w := Asked(layout, serve);
    forall i | 0 <= i < |layout|
      ensures exists g :: 0 <= g < |w.answers[i]| && Judge(hash, layout[i], w.answers[i][g]) == Fine
    {
      assert StillServed(serve, i, layout[i].nodes, parts[i]);
      var j :| 0 <= j < |layout[i].nodes| && serve(i, layout[i].nodes[j]).Stream?
        && serve(i, layout[i].nodes[j]).end == CleanEnd
        && Concat(serve(i, layout[i].nodes[j]).messages) == parts[i];
      assert Judge(hash, layout[i], w.answers[i][j]) == Fine;
    }
  }
}
