/** Rendezvous placement: the highest-scoring eligible nodes, with minimal movement. */
module Rendezvous {
  import opened Orders
  import opened Tables

  /** `free` is the node's available capacity; scores are any totally ordered numbers. */
  datatype NodeInfo = NodeInfo(id: NodeId, health: Health, free: int)

  /** `required` is the chunk size with the configured headroom. */
  datatype Request = Request(key: string, replicas: int, chunkSize: int, required: int, exclude: set<NodeId>,
                             allowSuspect: bool)

  datatype Selection = Selected(nodes: seq<NodeInfo>) | InvalidRequest | InsufficientNodes

  type Score = (string, NodeInfo) -> real

  /** What placement asks of a node: well, or merely suspect where that will do, with room, and not ruled out. */
  ghost predicate Fit(n: NodeInfo, req: Request) {
    && match n.health {
         case Healthy => true
         case Suspect => req.allowSuspect
         case _ => false
       }
    && req.required <= n.free && forall x | x in req.exclude :: x != n.id
  }

  /** The chosen nodes are fit, as many as asked for, best first, and nobody fit who was left out beats one of them. */
  ghost predicate Foremost(score: Score, nodes: seq<NodeInfo>, req: Request, chosen: seq<NodeInfo>) {
    && |chosen| == req.replicas
    && (forall n | n in chosen :: n in nodes && Fit(n, req))
    && (forall i, j | 0 <= i < j < |chosen| :: Ahead(score, req.key, chosen[i], chosen[j]))
    && (forall n, m | n in chosen && m in nodes && m !in chosen && Fit(m, req) :: Ahead(score, req.key, n, m))
  }

  /** A higher score, or the same score and a lower id. */
  ghost predicate Ahead(score: Score, key: string, a: NodeInfo, b: NodeInfo) {
    score(key, b) < score(key, a) || (score(key, b) == score(key, a) && a.id < b.id)
  }

  predicate Eligible(n: NodeInfo, req: Request) {
    && (n.health == Healthy || (n.health == Suspect && req.allowSuspect))
    && n.free >= req.required && n.id !in req.exclude
  }

  function Candidates(nodes: seq<NodeInfo>, req: Request): set<NodeInfo> {
    set n | n in nodes && Eligible(n, req)
  }

  /** Higher score first, then lower id. */
  function Better(score: Score, key: string): (NodeInfo, NodeInfo) -> bool {
    (a: NodeInfo, b: NodeInfo) => score(key, a) > score(key, b) || (score(key, a) == score(key, b) && a.id < b.id)
  }

  ghost predicate DistinctIds(s: set<NodeInfo>) {
    forall a, b | a in s && b in s && a.id == b.id :: a == b
  }

  ghost predicate Distinct(nodes: seq<NodeInfo>) {
    forall i, j | 0 <= i < j < |nodes| :: nodes[i].id != nodes[j].id
  }

  lemma BetterTotal(score: Score, key: string, s: set<NodeInfo>)
    requires DistinctIds(s)
    ensures StrictTotal(Better(score, key), s)
  {
  }

  lemma CandidateIds(nodes: seq<NodeInfo>, req: Request)
    requires Distinct(nodes)
    ensures DistinctIds(Candidates(nodes, req))
  {
    forall a, b | a in Candidates(nodes, req) && b in Candidates(nodes, req) && a.id == b.id ensures a == b {
      var i :| 0 <= i < |nodes| && nodes[i] == a;
      var j :| 0 <= j < |nodes| && nodes[j] == b;
      assert i == j;
    }
  }

  /** The ranking: every candidate, best first. */
  ghost function Ranking(score: Score, key: string, s: set<NodeInfo>): (l: seq<NodeInfo>)
    requires DistinctIds(s)
    ensures IsListing(Better(score, key), s, l) && |l| == |s|
  {
    BetterTotal(score, key, s);
    Sorted(Better(score, key), s)
  }

  // ------------------------------------------------------------------- the code

  lemma CandidatesMore(nodes: seq<NodeInfo>, i: nat, req: Request)
    requires Distinct(nodes) && i < |nodes|
    ensures forall n | n in Candidates(nodes[..i], req) :: n.id != nodes[i].id
    ensures Candidates(nodes[..i + 1], req) ==
      if Eligible(nodes[i], req) then Candidates(nodes[..i], req) + {nodes[i]} else Candidates(nodes[..i], req)
  {
    assert nodes[..i + 1] == nodes[..i] + [nodes[i]];
    forall n | n in Candidates(nodes[..i], req) ensures n.id != nodes[i].id {
      var k :| 0 <= k < i && nodes[k] == n;
    }
  }

  method EligibleNodes(nodes: seq<NodeInfo>, req: Request) returns (out: seq<NodeInfo>)
    requires Distinct(nodes)
    ensures Distinct(out) && Elements(out) == Candidates(nodes, req) && |out| == |Candidates(nodes, req)|
  {
    out := [];
    for i := 0 to |nodes|
      invariant Distinct(out) && Elements(out) == Candidates(nodes[..i], req) && |out| == |Candidates(nodes[..i], req)|
    {
      CandidatesMore(nodes, i, req);
      if Eligible(nodes[i], req) {
        assert forall k | 0 <= k < |out| :: out[k] in Elements(out);
        ElementsSnoc(out, nodes[i]);
        out := out + [nodes[i]];
      }
    }
    assert nodes[..|nodes|] == nodes;
  }

  /** Puts a node at its place in a sorted list. */
  method Insert(score: Score, key: string, sorted: seq<NodeInfo>, n: NodeInfo) returns (out: seq<NodeInfo>)
    requires IsListing(Better(score, key), Elements(sorted), sorted)
    requires DistinctIds(Elements(sorted) + {n}) && n !in sorted
    ensures IsListing(Better(score, key), Elements(sorted) + {n}, out)
  {
    var less := Better(score, key);
    BetterTotal(score, key, Elements(sorted) + {n});
    var k := 0;
    while k < |sorted| && less(sorted[k], n)
      invariant 0 <= k <= |sorted| && forall i | 0 <= i < k :: less(sorted[i], n)
    {
      k := k + 1;
    }
    out := sorted[..k] + [n] + sorted[k..];
    InsertListing(less, sorted, n, k);
  }

  lemma InsertListing<T>(less: (T, T) -> bool, sorted: seq<T>, n: T, k: nat)
    requires IsListing(less, Elements(sorted), sorted) && StrictTotal(less, Elements(sorted) + {n}) && n !in sorted
    requires k <= |sorted| && (forall i | 0 <= i < k :: less(sorted[i], n)) && (k < |sorted| ==> !less(sorted[k], n))
    ensures IsListing(less, Elements(sorted) + {n}, sorted[..k] + [n] + sorted[k..])
  {
    var out := sorted[..k] + [n] + sorted[k..];
    assert forall i | 0 <= i < |sorted| :: sorted[i] in Elements(sorted);
    if k < |sorted| {
      assert less(n, sorted[k]);
    }
    assert forall i | k < i < |sorted| :: less(sorted[k], sorted[i]);
    assert forall i | k <= i < |sorted| :: less(n, sorted[i]);
    forall x | x in Elements(sorted) + {n} ensures x in out {
      if x != n {
        var i :| 0 <= i < |sorted| && sorted[i] == x;
        assert out[if i < k then i else i + 1] == x;
      } else {
        assert out[k] == x;
      }
    }
    InsertOrder(less, sorted, n, k);
  }

  lemma InsertOrder<T>(less: (T, T) -> bool, sorted: seq<T>, n: T, k: nat)
    requires forall i, j | 0 <= i < j < |sorted| :: less(sorted[i], sorted[j])
    requires k <= |sorted| && (forall i | 0 <= i < k :: less(sorted[i], n))
    requires forall i | k <= i < |sorted| :: less(n, sorted[i])
    ensures var out := sorted[..k] + [n] + sorted[k..]; forall i, j | 0 <= i < j < |out| :: less(out[i], out[j])
  {
    var out := sorted[..k] + [n] + sorted[k..];
    forall i, j | 0 <= i < j < |out| ensures less(out[i], out[j]) {
      var a, b := if i <= k then i else i - 1, if j <= k then j else j - 1;
      assert i != k ==> out[i] == sorted[a];
      assert j != k ==> out[j] == sorted[b];
    }
  }

  method Rank(score: Score, nodes: seq<NodeInfo>, req: Request) returns (out: seq<NodeInfo>)
    requires Distinct(nodes)
    ensures DistinctIds(Candidates(nodes, req)) && out == Ranking(score, req.key, Candidates(nodes, req))
  {
    var candidates := EligibleNodes(nodes, req);
    CandidateIds(nodes, req);
    out := [];
    assert Elements(out) == {};
    for i := 0 to |candidates|
      invariant Elements(out) == Elements(candidates[..i]) && IsListing(Better(score, req.key), Elements(out), out)
    {
      assert candidates[..i + 1] == candidates[..i] + [candidates[i]];
      assert candidates[i] in Elements(candidates) && Elements(candidates[..i]) <= Elements(candidates);
      assert candidates[i] !in Elements(candidates[..i]);
      ghost var done := Elements(out);
      out := Insert(score, req.key, out, candidates[i]);
      assert Elements(out) == done + {candidates[i]};
    }
    assert candidates[..|candidates|] == candidates;
    BetterTotal(score, req.key, Candidates(nodes, req));
    ListingUnique(Better(score, req.key), Candidates(nodes, req), out, Ranking(score, req.key, Candidates(nodes, req)));
  }

  lemma FitMeans(nodes: seq<NodeInfo>, req: Request)
    ensures Candidates(nodes, req) == set n | n in nodes && Fit(n, req)
    ensures forall n :: n in Candidates(nodes, req) <==> n in nodes && Fit(n, req)
  {
  }

  lemma PrefixForemost(score: Score, nodes: seq<NodeInfo>, req: Request)
    requires DistinctIds(Candidates(nodes, req)) && 1 <= req.replicas <= |Candidates(nodes, req)|
    ensures Foremost(score, nodes, req, Ranking(score, req.key, Candidates(nodes, req))[..req.replicas])
  {
    var s, less := Candidates(nodes, req), Better(score, req.key);
    var l := Ranking(score, req.key, s);
    var chosen := l[..req.replicas];
    FitMeans(nodes, req);
    forall n, m | n in chosen && m in nodes && m !in chosen && Fit(m, req) ensures Ahead(score, req.key, n, m) {
      PrefixBeatsRest(less, l, req.replicas, n, m);
    }
    assert forall n | n in chosen :: n in l;
  }

  lemma PrefixBeatsRest<T>(less: (T, T) -> bool, l: seq<T>, r: nat, n: T, m: T)
    requires r <= |l| && n in l[..r] && m in l && m !in l[..r]
    requires forall i, j | 0 <= i < j < |l| :: less(l[i], l[j])
    ensures less(n, m)
  {
    var rest := l[r..];
    assert l == l[..r] + rest;
    var i :| 0 <= i < r && l[i] == n;
    var j :| 0 <= j < |rest| && rest[j] == m;
    assert less(l[i], l[r + j]);
  }

  /** The best `replicas` candidates, best first; never fewer. */
  method SelectNodes(score: Score, nodes: seq<NodeInfo>, req: Request) returns (r: Selection)
    requires Distinct(nodes)
    ensures DistinctIds(Candidates(nodes, req))
    ensures r.InvalidRequest? <==> req.replicas < 1 || req.chunkSize < 0 || req.key == ""
    ensures r.InsufficientNodes? <==>
      req.key != "" && req.chunkSize >= 0 && 1 <= req.replicas && |Candidates(nodes, req)| < req.replicas
    ensures Candidates(nodes, req) == set n | n in nodes && Fit(n, req)
    ensures r.Selected? ==> Foremost(score, nodes, req, r.nodes)
    ensures r.Selected? ==>
      1 <= req.replicas <= |Candidates(nodes, req)|
        && r.nodes == Ranking(score, req.key, Candidates(nodes, req))[..req.replicas]
  {
    CandidateIds(nodes, req);
    FitMeans(nodes, req);
    if req.replicas < 1 || req.chunkSize < 0 || req.key == "" {
      return InvalidRequest;
    }
    var ranked := Rank(score, nodes, req);
    if |ranked| < req.replicas {
      return InsufficientNodes;
    }
    PrefixForemost(score, nodes, req);
    return Selected(ranked[..req.replicas]);
  }

  // ------------------------------------------------------------------ properties

  lemma SameCandidates(nodes: seq<NodeInfo>, shuffled: seq<NodeInfo>, req: Request)
    requires Elements(nodes) == Elements(shuffled)
    ensures Candidates(nodes, req) == Candidates(shuffled, req)
  {
    assert forall n :: n in nodes <==> n in Elements(nodes);
    assert forall n :: n in shuffled <==> n in Elements(shuffled);
  }

  /** The outcome depends on which nodes there are, not on the order they are listed in. */
  method OrderIndependent(score: Score, nodes: seq<NodeInfo>, shuffled: seq<NodeInfo>, req: Request)
      returns (a: Selection, b: Selection)
    requires Distinct(nodes) && Distinct(shuffled) && Elements(nodes) == Elements(shuffled)
    ensures a == b
    ensures a.Selected? <==> req.key != "" && req.chunkSize >= 0 && 1 <= req.replicas <= |Candidates(nodes, req)|
  {
    a := SelectNodes(score, nodes, req);
    b := SelectNodes(score, shuffled, req);
    SameCandidates(nodes, shuffled, req);
  }

  /** The chosen set: what a selection of `r` nodes contains. */
  lemma ChosenIsTop(score: Score, key: string, s: set<NodeInfo>, r: nat)
    requires DistinctIds(s) && r <= |s|
    ensures Elements(Ranking(score, key, s)[..r]) == Top(Better(score, key), s, r)
  {
    BetterTotal(score, key, s);
    ListingTop(Better(score, key), s, Ranking(score, key, s), r);
  }

  lemma RankWithout<T>(less: (T, T) -> bool, s: set<T>, x: T, y: T)
    requires StrictTotal(less, s) && x in s && y in s && x != y
    ensures Orders.Rank(less, s - {x}, y) == Orders.Rank(less, s, y) - if less(x, y) then 1 else 0
  {
    assert Before(less, s - {x}, y) == Before(less, s, y) - {x};
  }

  /**
   Minimal movement when a node leaves: nothing changes unless it was chosen, and then the
   next-ranked node takes its place.
   */
  lemma RemoveMovesOne<T>(less: (T, T) -> bool, s: set<T>, x: T, r: nat)
    requires StrictTotal(less, s) && x in s
    ensures x !in Top(less, s, r) ==> Top(less, s - {x}, r) == Top(less, s, r)
    ensures x in Top(less, s, r) ==>
      Top(less, s - {x}, r) == (Top(less, s, r) - {x}) + set y | y in s && Orders.Rank(less, s, y) == r
  {
    forall y | y in s && y != x
      ensures y in Top(less, s - {x}, r) <==>
        y in Top(less, s, r) || (Orders.Rank(less, s, x) < r && Orders.Rank(less, s, y) == r)
    {
      RankWithout(less, s, x, y);
      RankMonotone(less, s, x, y);
    }
  }

  /** Minimal movement when a node joins: it replaces at most one chosen node, the last-ranked. */
  lemma AddMovesOne<T>(less: (T, T) -> bool, s: set<T>, x: T, r: nat)
    requires StrictTotal(less, s + {x}) && x !in s
    ensures Top(less, s + {x}, r) <= Top(less, s, r) + {x}
    ensures |Top(less, s, r) - Top(less, s + {x}, r)| <= 1
    ensures x !in Top(less, s + {x}, r) ==> Top(less, s + {x}, r) == Top(less, s, r)
  {
    var all := s + {x};
    assert all - {x} == s;
    RemoveMovesOne(less, all, x, r);
    var pushed := set y | y in all && Orders.Rank(less, all, y) == r;
    assert Top(less, s, r) - Top(less, all, r) <= pushed;
    SameRankOnce(less, all, r);
    SubsetSize(Top(less, s, r) - Top(less, all, r), pushed);
  }

  lemma SameRankOnce<T>(less: (T, T) -> bool, s: set<T>, r: nat)
    requires StrictTotal(less, s)
    ensures |set y | y in s && Orders.Rank(less, s, y) == r| <= 1
  {
    var same := set y | y in s && Orders.Rank(less, s, y) == r;
    if y :| y in same {
      forall z | z in same ensures z == y {
        RankMonotone(less, s, y, z);
        RankMonotone(less, s, z, y);
      }
      assert same == {y};
    }
  }

  /** What a selection loses and gains when a candidate leaves. */
  lemma LeaveMovesOne(score: Score, key: string, s: set<NodeInfo>, x: NodeInfo, r: nat)
    requires DistinctIds(s) && x in s && r < |s|
    ensures DistinctIds(s - {x})
    ensures var before, after := Ranking(score, key, s), Ranking(score, key, s - {x});
      Elements(after[..r]) ==
        if x in before[..r] then (Elements(before[..r]) - {x}) + {before[r]} else Elements(before[..r])
  {
    var less, before := Better(score, key), Ranking(score, key, s);
    BetterTotal(score, key, s);
    ChosenIsTop(score, key, s, r);
    ChosenIsTop(score, key, s - {x}, r);
    RemoveMovesOne(less, s, x, r);
    ListingRank(less, s, before, r);
    SameRankOnce(less, s, r);
    assert x in before[..r] <==> x in Elements(before[..r]);
    var next := set y | y in s && Orders.Rank(less, s, y) == r;
    assert before[r] in next;
    SubsetSize({before[r]}, next);
  }

  /** What a selection loses and gains when a candidate joins. */
  lemma JoinMovesOne(score: Score, key: string, s: set<NodeInfo>, x: NodeInfo, r: nat)
    requires DistinctIds(s + {x}) && x !in s && r <= |s|
    ensures DistinctIds(s)
    ensures var before, after := Elements(Ranking(score, key, s)[..r]), Elements(Ranking(score, key, s + {x})[..r]);
      after <= before + {x} && |before - after| <= 1 && (x !in after ==> after == before)
  {
    BetterTotal(score, key, s + {x});
    ChosenIsTop(score, key, s, r);
    ChosenIsTop(score, key, s + {x}, r);
    AddMovesOne(Better(score, key), s, x, r);
  }
}
