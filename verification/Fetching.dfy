/** Reading one chunk into a reused buffer, verified, with failover between replicas. */
module Fetching {
  import opened Splitting

  type NodeId = nat

  datatype Placement = Placement(size: nat, sum: string, nodes: seq<NodeId>)

  /** How a node's stream ends: cleanly, in a transport error, or refused as corrupt by the node. */
  datatype StreamEnd = CleanEnd | Transport | NodeCorrupt

  /** What a node answers to a read: unreachable, or messages and then an end. */
  datatype Answer = NoDial | Stream(messages: seq<Bytes>, end: StreamEnd)

  datatype Verdict = Fine | Corrupt | Unreachable

  datatype Fetched = Data(size: nat) | Cancelled | NoReplica

  /** Some prefix of the messages is longer than the recorded size. */
  predicate Overflows(messages: seq<Bytes>, size: nat) {
    |Concat(messages)| > size
  }

  /** Which answers are good, which condemn the replica, and which only say it is unreachable. */
  function Judge(hash: Bytes -> string, chunk: Placement, a: Answer): Verdict {
    if a.NoDial? then Unreachable
    else if Overflows(a.messages, chunk.size) then Corrupt
    else if a.end == Transport then Unreachable
    else if a.end == NodeCorrupt then Corrupt
    else if |Concat(a.messages)| == chunk.size && hash(Concat(a.messages)) == chunk.sum then Fine
    else Corrupt
  }

  /** The answer is exactly the recorded bytes. */
  ghost predicate Delivers(hash: Bytes -> string, chunk: Placement, a: Answer) {
    && a.Stream? && a.end == CleanEnd
    && |Concat(a.messages)| == chunk.size && hash(Concat(a.messages)) == chunk.sum
  }

  /**
   The answer proves the replica bad: it is longer than the chunk, the node itself says so, or it ends cleanly with
   the wrong length or digest. A node that cannot be reached, or a connection that breaks within the recorded size,
   proves nothing.
   */
  ghost predicate Condemns(hash: Bytes -> string, chunk: Placement, a: Answer) {
    && a.Stream?
    && (|| |Concat(a.messages)| > chunk.size
        || a.end == NodeCorrupt
        || (a.end == CleanEnd && (|Concat(a.messages)| != chunk.size || hash(Concat(a.messages)) != chunk.sum)))
  }

  /** The attempt on replica `j` was made, failed, and was not the last: nothing before it served or was cancelled. */
  ghost predicate PassedOver(hash: Bytes -> string, chunk: Placement, answers: seq<Answer>, cancelled: seq<bool>,
                             j: nat)
    requires j < |answers| == |cancelled|
  {
    forall i | 0 <= i <= j :: !Delivers(hash, chunk, answers[i]) && !cancelled[i]
  }

  lemma {:induction false} PrefixShorter(messages: seq<Bytes>, i: nat)
    requires i <= |messages|
    ensures |Concat(messages[..i])| <= |Concat(messages)| && Concat(messages[..i]) <= Concat(messages)
  {
    assert messages == messages[..i] + messages[i..];
    ConcatAppend(messages[..i], messages[i..]);
  }

  lemma TakeOne(messages: seq<Bytes>, i: nat)
    requires i < |messages|
    ensures Concat(messages[..i + 1]) == Concat(messages[..i]) + messages[i]
  {
    assert messages[..i + 1] == messages[..i] + [messages[i]];
    ConcatSnoc(messages[..i], messages[i]);
  }

  /** Appends one message to the buffer in place. */
  method AppendTo(buf: array<Byte>, len: nat, data: Bytes)
    requires len + |data| <= buf.Length
    modifies buf
    ensures buf[..len + |data|] == old(buf[..len]) + data
  {
    for i := 0 to |data|
      invariant buf[..len] == old(buf[..len]) && buf[len..len + i] == data[..i]
    {
      buf[len + i] := data[i];
    }
    assert buf[..len + |data|] == buf[..len] + buf[len..len + |data|];
  }

  /** One attempt. Whatever the buffer held before, only this node's bytes are accepted. */
  method FetchFrom(hash: Bytes -> string, chunk: Placement, a: Answer, buf: array<Byte>) returns (v: Verdict, len: nat)
    requires chunk.size <= buf.Length
    modifies buf
    ensures v == Judge(hash, chunk, a)
    ensures v.Fine? <==> Delivers(hash, chunk, a)
    ensures v.Corrupt? <==> Condemns(hash, chunk, a)
    ensures v.Fine? ==> a.Stream? && len == chunk.size && buf[..len] == Concat(a.messages)
  {
    len := 0;
    if a.NoDial? {
      return Unreachable, 0;
    }
    var i := 0;
    while i < |a.messages|
      invariant 0 <= i <= |a.messages| && len <= chunk.size
      invariant buf[..len] == Concat(a.messages[..i])
    {
      TakeOne(a.messages, i);
      PrefixShorter(a.messages, i + 1);
      var data := a.messages[i];
      if len + |data| > chunk.size {
        return Corrupt, len;
      }
      AppendTo(buf, len, data);
      len := len + |data|;
      i := i + 1;
    }
    assert a.messages[..i] == a.messages;
    if a.end == Transport {
      return Unreachable, len;
    }
    if a.end == NodeCorrupt || len != chunk.size || hash(buf[..len]) != chunk.sum {
      return Corrupt, len;
    }
    return Fine, len;
  }

  // -------------------------------------------------------------------- failover

  /** Corrupt replicas among the first `n` tried, in order. */
  function CorruptAmong(hash: Bytes -> string, chunk: Placement, answers: seq<Answer>, n: nat): seq<NodeId>
    requires n <= |answers| == |chunk.nodes|
  {
    if n == 0 then []
    else
      CorruptAmong(hash, chunk, answers, n - 1) +
      if Judge(hash, chunk, answers[n - 1]) == Corrupt then [chunk.nodes[n - 1]] else []
  }

  /** The first answer that ends the loop: a good one, or any during which the request is cancelled. */
  function FirstStop(hash: Bytes -> string, chunk: Placement, answers: seq<Answer>, cancelled: seq<bool>,
                     i: nat): (k: nat)
    requires i <= |answers| == |cancelled|
    ensures i <= k <= |answers|
    ensures forall j | i <= j < k :: Judge(hash, chunk, answers[j]) != Fine && !cancelled[j]
    ensures k < |answers| ==> Judge(hash, chunk, answers[k]) == Fine || cancelled[k]
    decreases |answers| - i
  {
    if i == |answers| || Judge(hash, chunk, answers[i]) == Fine || cancelled[i] then i
    else FirstStop(hash, chunk, answers, cancelled, i + 1)
  }

  /**
   Verified failover. `cancelled[i]` says whether the request has been cancelled by the time the
   i-th attempt fails. The bytes returned are exactly the first good replica's; the reports are
   exactly the corrupt replicas tried before it, each once, in order.
   */
  method Fetch(hash: Bytes -> string, chunk: Placement, answers: seq<Answer>, cancelled: seq<bool>, spare: array<Byte>)
      returns (r: Fetched, buf: array<Byte>, reports: seq<NodeId>)
    requires |answers| == |cancelled| == |chunk.nodes|
    modifies spare
    ensures buf == spare || fresh(buf)
    ensures var k := FirstStop(hash, chunk, answers, cancelled, 0);
      && reports == CorruptAmong(hash, chunk, answers, k)
      && r == (if k == |answers| then NoReplica
               else if Judge(hash, chunk, answers[k]) == Fine then Data(chunk.size) else Cancelled)
      && (r.Data? ==>
            && chunk.size <= buf.Length && answers[k].Stream? && buf[..chunk.size] == Concat(answers[k].messages)
            && hash(buf[..chunk.size]) == chunk.sum)
    ensures forall x :: x in reports <==>
      exists j :: 0 <= j < |answers| && chunk.nodes[j] == x && Condemns(hash, chunk, answers[j])
                  && PassedOver(hash, chunk, answers, cancelled, j)
    ensures r.Data? <==> exists j :: 0 <= j < |answers| && Delivers(hash, chunk, answers[j])
                                     && (j > 0 ==> PassedOver(hash, chunk, answers, cancelled, j - 1))
    ensures r.NoReplica? <==> forall j | 0 <= j < |answers| :: !Delivers(hash, chunk, answers[j]) && !cancelled[j]
  {
    ReportedIff(hash, chunk, answers, cancelled);
    OutcomeIff(hash, chunk, answers, cancelled);
    buf, reports := spare, [];
    if buf.Length < chunk.size {
      buf := new Byte[chunk.size];
    }
    var i := 0;
    while i < |chunk.nodes|
      invariant 0 <= i <= |chunk.nodes| && chunk.size <= buf.Length && (buf == spare || fresh(buf))
      invariant FirstStop(hash, chunk, answers, cancelled, i) == FirstStop(hash, chunk, answers, cancelled, 0)
      invariant reports == CorruptAmong(hash, chunk, answers, i)
    {
      var v, len := FetchFrom(hash, chunk, answers[i], buf);
      if v == Fine {
        return Data(len), buf, reports;
      }
      if cancelled[i] {
        return Cancelled, buf, reports;
      }
      if v == Corrupt {
        reports := reports + [chunk.nodes[i]];
      }
      i := i + 1;
    }
    r := NoReplica;
  }

  /** A read that is not cancelled succeeds whenever some listed replica serves good bytes. */
  lemma GoodReplicaSuffices(hash: Bytes -> string, chunk: Placement, answers: seq<Answer>, cancelled: seq<bool>, g: nat)
    requires |answers| == |cancelled| == |chunk.nodes| && g < |answers| && Judge(hash, chunk, answers[g]) == Fine
    requires forall j | 0 <= j < |cancelled| :: !cancelled[j]
    ensures var k := FirstStop(hash, chunk, answers, cancelled, 0); k <= g && Judge(hash, chunk, answers[k]) == Fine
  {
  }

  /** A reported node is one that was tried, before the stop, and condemned by its own answer. */
  lemma {:induction false} ReportsAreCorrupt(hash: Bytes -> string, chunk: Placement, answers: seq<Answer>, n: nat,
                                             x: NodeId)
    requires n <= |answers| == |chunk.nodes|
    ensures x in CorruptAmong(hash, chunk, answers, n) <==>
      exists j :: 0 <= j < n && chunk.nodes[j] == x && Judge(hash, chunk, answers[j]) == Corrupt
  {
    if n > 0 {
      ReportsAreCorrupt(hash, chunk, answers, n - 1, x);
    }
  }

  lemma JudgeMeans(hash: Bytes -> string, chunk: Placement, a: Answer)
    ensures Judge(hash, chunk, a) == Fine <==> Delivers(hash, chunk, a)
    ensures Judge(hash, chunk, a) == Corrupt <==> Condemns(hash, chunk, a)
  {
  }

  lemma StopMeans(hash: Bytes -> string, chunk: Placement, answers: seq<Answer>, cancelled: seq<bool>, j: nat)
    requires j < |answers| == |cancelled|
    ensures j < FirstStop(hash, chunk, answers, cancelled, 0) <==> PassedOver(hash, chunk, answers, cancelled, j)
  {
    forall i | 0 <= i < |answers|
      ensures Judge(hash, chunk, answers[i]) == Fine <==> Delivers(hash, chunk, answers[i])
    {
      JudgeMeans(hash, chunk, answers[i]);
    }
  }

  /**
   A node is reported corrupt exactly when it was tried, passed over, and its own answer condemns it; a node that
   cannot be reached, or whose connection breaks within the recorded size, never is.
   */
  lemma ReportedIff(hash: Bytes -> string, chunk: Placement, answers: seq<Answer>, cancelled: seq<bool>)
    requires |answers| == |cancelled| == |chunk.nodes|
    ensures var reports := CorruptAmong(hash, chunk, answers, FirstStop(hash, chunk, answers, cancelled, 0));
      forall x :: x in reports <==>
        exists j :: 0 <= j < |answers| && chunk.nodes[j] == x && Condemns(hash, chunk, answers[j])
                    && PassedOver(hash, chunk, answers, cancelled, j)
  {
    var k := FirstStop(hash, chunk, answers, cancelled, 0);
    forall j | 0 <= j < |answers|
      ensures j < k <==> PassedOver(hash, chunk, answers, cancelled, j)
      ensures Judge(hash, chunk, answers[j]) == Corrupt <==> Condemns(hash, chunk, answers[j])
    {
      StopMeans(hash, chunk, answers, cancelled, j);
      JudgeMeans(hash, chunk, answers[j]);
    }
    forall x ensures x in CorruptAmong(hash, chunk, answers, k) <==>
      exists j :: 0 <= j < |answers| && chunk.nodes[j] == x && Condemns(hash, chunk, answers[j])
                  && PassedOver(hash, chunk, answers, cancelled, j)
    {
      ReportsAreCorrupt(hash, chunk, answers, k, x);
    }
  }

  /** A read succeeds exactly when a replica delivers before it is cancelled, and runs out when neither happens. */
  lemma OutcomeIff(hash: Bytes -> string, chunk: Placement, answers: seq<Answer>, cancelled: seq<bool>)
    requires |answers| == |cancelled| == |chunk.nodes|
    ensures var k := FirstStop(hash, chunk, answers, cancelled, 0);
      && (k < |answers| && Judge(hash, chunk, answers[k]) == Fine <==>
            exists j :: 0 <= j < |answers| && Delivers(hash, chunk, answers[j])
                        && (j > 0 ==> PassedOver(hash, chunk, answers, cancelled, j - 1)))
      && (k == |answers| <==> forall j | 0 <= j < |answers| :: !Delivers(hash, chunk, answers[j]) && !cancelled[j])
  {
    var k := FirstStop(hash, chunk, answers, cancelled, 0);
    forall j | 0 <= j < |answers|
      ensures j < k <==> PassedOver(hash, chunk, answers, cancelled, j)
      ensures Judge(hash, chunk, answers[j]) == Fine <==> Delivers(hash, chunk, answers[j])
    {
      StopMeans(hash, chunk, answers, cancelled, j);
      JudgeMeans(hash, chunk, answers[j]);
    }
  }

  /** With distinct replica nodes no node is reported twice. */
  lemma {:induction false} ReportedOnce(hash: Bytes -> string, chunk: Placement, answers: seq<Answer>, n: nat)
    requires n <= |answers| == |chunk.nodes|
    requires forall i, j | 0 <= i < j < |chunk.nodes| :: chunk.nodes[i] != chunk.nodes[j]
    ensures var l := CorruptAmong(hash, chunk, answers, n); forall i, j | 0 <= i < j < |l| :: l[i] != l[j]
  {
    if n > 0 {
      ReportedOnce(hash, chunk, answers, n - 1);
      ReportsAreCorrupt(hash, chunk, answers, n - 1, chunk.nodes[n - 1]);
    }
  }
}
