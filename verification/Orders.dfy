/**
 Strict orders on finite sets: positions, the first `r` elements, and sorted listings.

 `ORDER BY ... LIMIT`, `ROW_NUMBER()` and the placement engine's sort all mean the same
 thing here: an element's position is the number of elements ordered before it.
 */
module Orders {

  ghost predicate StrictTotal<T>(less: (T, T) -> bool, s: set<T>) {
    && (forall a | a in s :: !less(a, a))
    && (forall a, b | a in s && b in s && a != b :: less(a, b) || less(b, a))
    && (forall a, b, c | a in s && b in s && c in s && less(a, b) && less(b, c) :: less(a, c))
  }

  /** The elements of `s` ordered strictly before `x`. */
  function Before<T(==)>(less: (T, T) -> bool, s: set<T>, x: T): set<T> {
    set y | y in s && less(y, x)
  }

  /** Zero-based position of `x`: `ROW_NUMBER() - 1`. */
  function Rank<T(==)>(less: (T, T) -> bool, s: set<T>, x: T): nat {
    |Before(less, s, x)|
  }

  /** The `r` foremost elements. */
  function Top<T(==)>(less: (T, T) -> bool, s: set<T>, r: nat): set<T> {
    set x | x in s && Rank(less, s, x) < r
  }

  function Min(a: nat, b: nat): nat {
    if a < b then a else b
  }

  lemma SubsetSize<T>(a: set<T>, b: set<T>)
    requires a <= b
    ensures |a| <= |b|
    ensures |a| == |b| ==> a == b
  {
    assert a + (b - a) == b;
    assert |b| == |a| + |b - a|;
  }

  lemma StrictTotalSubset<T>(less: (T, T) -> bool, s: set<T>, t: set<T>)
    requires StrictTotal(less, s) && t <= s
    ensures StrictTotal(less, t)
  {
  }

  /** Every non-empty finite set has a last element. */
  lemma {:induction false} Last<T>(less: (T, T) -> bool, s: set<T>) returns (m: T)
    requires StrictTotal(less, s) && s != {}
    ensures m in s && forall y | y in s :: y == m || less(y, m)
    decreases |s|
  {
    m :| m in s;
    if s != {m} {
      var rest := s - {m};
      assert s == rest + {m};
      var k := Last(less, rest);
      if less(m, k) {
        m := k;
      } else {
        forall y | y in s ensures y == m || less(y, m) {
          if y != m {
            assert y == k || less(y, k);
            assert less(k, m);
          }
        }
      }
    }
  }

  /** Every non-empty finite set has a first element. */
  lemma {:induction false} First<T>(less: (T, T) -> bool, s: set<T>) returns (m: T)
    requires StrictTotal(less, s) && s != {}
    ensures m in s && forall y | y in s :: y == m || less(m, y)
    decreases |s|
  {
    m :| m in s;
    if s != {m} {
      var rest := s - {m};
      assert s == rest + {m};
      var k := First(less, rest);
      if less(k, m) {
        m := k;
      } else {
        forall y | y in s ensures y == m || less(m, y) {
          if y != m {
            assert y == k || less(k, y);
            assert less(m, k);
          }
        }
      }
    }
  }

  /** Positions follow the order, so distinct elements have distinct positions. */
  lemma RankMonotone<T>(less: (T, T) -> bool, s: set<T>, x: T, y: T)
    requires StrictTotal(less, s) && x in s && y in s
    ensures less(x, y) <==> Rank(less, s, x) < Rank(less, s, y)
    ensures Rank(less, s, x) < |s|
  {
    RankStep(less, s, x, y);
    RankStep(less, s, y, x);
    var b := Before(less, s, x);
    assert b <= s - {x};
    SubsetSize(b, s - {x});
  }

  lemma RankStep<T>(less: (T, T) -> bool, s: set<T>, x: T, y: T)
    requires StrictTotal(less, s) && x in s && y in s
    ensures less(x, y) ==> Rank(less, s, x) < Rank(less, s, y)
  {
    if less(x, y) {
      var a, b := Before(less, s, x), Before(less, s, y);
      assert a + {x} <= b;
      SubsetSize(a + {x}, b);
    }
  }

  /** Exactly min(|s|, r) elements have a position below `r`. */
  lemma {:induction false} TopSize<T>(less: (T, T) -> bool, s: set<T>, r: nat)
    requires StrictTotal(less, s)
    ensures |Top(less, s, r)| == Min(|s|, r)
    decreases |s|
  {
    if s == {} {
      assert Top(less, s, r) == {};
    } else {
      var m := Last(less, s);
      var rest := s - {m};
      StrictTotalSubset(less, s, rest);
      TopSize(less, rest, r);
      assert Before(less, s, m) == rest;
      forall x | x in rest ensures Rank(less, s, x) == Rank(less, rest, x) {
        assert Before(less, s, x) == Before(less, rest, x);
      }
      if |rest| < r {
        assert Top(less, s, r) == Top(less, rest, r) + {m};
      } else {
        assert Top(less, s, r) == Top(less, rest, r);
      }
    }
  }

  /** Whatever is kept precedes whatever is not. */
  lemma TopPrecedes<T>(less: (T, T) -> bool, s: set<T>, r: nat, x: T, y: T)
    requires StrictTotal(less, s)
    requires x in Top(less, s, r) && y in s - Top(less, s, r)
    ensures less(x, y)
  {
    RankMonotone(less, s, y, x);
    assert x != y;
  }

  // ---------------------------------------------------------------- listings

  /** `l` lists exactly the elements of `s`, in order, each once. */
  ghost predicate IsListing<T>(less: (T, T) -> bool, s: set<T>, l: seq<T>) {
    && (forall x | x in l :: x in s)
    && (forall x | x in s :: x in l)
    && (forall i, j | 0 <= i < j < |l| :: less(l[i], l[j]))
  }

  lemma NonEmptyHasMember<T>(l: seq<T>)
    ensures l == [] || exists x :: x in l
  {
    if l != [] {
      assert l[0] in l;
    }
  }

  lemma {:induction false} ListingUnique<T>(less: (T, T) -> bool, s: set<T>, a: seq<T>, b: seq<T>)
    requires StrictTotal(less, s) && IsListing(less, s, a) && IsListing(less, s, b)
    ensures a == b
    decreases |a|
  {
    if a == [] {
      NonEmptyHasMember(b);
    } else {
      assert a[0] in s;
      assert a[0] in b && b[0] in s && b[0] in a;
      var i :| 0 <= i < |a| && a[i] == b[0];
      var j :| 0 <= j < |b| && b[j] == a[0];
      var x, y := a[0], b[0];
      assert i == 0 || less(x, y);
      assert j == 0 || less(y, x);
      assert x == y;
      var rest := s - {a[0]};
      StrictTotalSubset(less, s, rest);
      ListingTail(less, s, a);
      ListingTail(less, s, b);
      ListingUnique(less, rest, a[1..], b[1..]);
      assert a == [a[0]] + a[1..] && b == [b[0]] + b[1..];
    }
  }

  lemma ListingTail<T>(less: (T, T) -> bool, s: set<T>, a: seq<T>)
    requires StrictTotal(less, s) && IsListing(less, s, a) && a != []
    ensures IsListing(less, s - {a[0]}, a[1..])
  {
    forall x | x in a[1..] || x in s - {a[0]}
      ensures x in a[1..] && x in s - {a[0]}
    {
      if x in a[1..] {
        var i :| 0 <= i < |a[1..]| && a[1..][i] == x;
        assert a[i + 1] == x;
        assert x in a;
        assert less(a[0], x);
      }
      if x in s - {a[0]} {
        var i :| 0 <= i < |a| && a[i] == x;
        assert a[1..][i - 1] == x;
      }
    }
  }

  /** The sorted listing of a finite set. */
  ghost function Sorted<T>(less: (T, T) -> bool, s: set<T>): (l: seq<T>)
    requires StrictTotal(less, s)
    ensures IsListing(less, s, l)
    ensures |l| == |s|
    decreases |s|
  {
    if s == {} then []
    else
      assert exists m :: m in s && (forall y | y in s :: y == m || less(m, y)) by {
        var m := First(less, s);
      }
      var m :| m in s && forall y | y in s :: y == m || less(m, y);
      var tail := Sorted(less, s - {m});
      [m] + tail
  }

  function Elements<T(==)>(l: seq<T>): set<T> {
    set x | x in l
  }

  /** In a sorted listing the element at index `i` has position `i`. */
  lemma ListingRank<T>(less: (T, T) -> bool, s: set<T>, l: seq<T>, i: nat)
    requires StrictTotal(less, s) && IsListing(less, s, l) && i < |l|
    ensures l[i] in s && Rank(less, s, l[i]) == i
  {
    assert forall k | 0 <= k < |l| :: l[k] in s;
    assert forall k | 0 <= k < |l| :: less(l[k], l[i]) <==> k < i;
    assert Elements(l[..i]) == Before(less, s, l[i]) by {
      forall y | y in Before(less, s, l[i]) ensures y in l[..i] {
        var k :| 0 <= k < |l| && l[k] == y;
        assert l[..i][k] == y;
      }
    }
    PrefixSize(less, s, l, i);
  }

  lemma ElementsSnoc<T>(l: seq<T>, x: T)
    ensures Elements(l + [x]) == Elements(l) + {x}
  {
  }

  lemma {:induction false} PrefixSize<T>(less: (T, T) -> bool, s: set<T>, l: seq<T>, n: nat)
    requires StrictTotal(less, s) && IsListing(less, s, l) && n <= |l|
    ensures |Elements(l[..n])| == n
  {
    if n > 0 {
      PrefixSize(less, s, l, n - 1);
      var x := l[n - 1];
      assert x in l && !less(x, x);
      assert forall k | 0 <= k < n - 1 :: less(l[k], x);
      ElementsSnoc(l[..n - 1], x);
      assert l[..n] == l[..n - 1] + [x];
    }
  }

  lemma ListingSize<T>(less: (T, T) -> bool, s: set<T>, l: seq<T>)
    requires StrictTotal(less, s) && IsListing(less, s, l)
    ensures |l| == |s|
  {
    ListingUnique(less, s, l, Sorted(less, s));
  }

  /** Cutting a sorted listing after `r` entries keeps exactly the elements of `Top`. */
  lemma ListingTop<T>(less: (T, T) -> bool, s: set<T>, l: seq<T>, r: nat)
    requires StrictTotal(less, s) && IsListing(less, s, l) && r <= |l|
    ensures Elements(l[..r]) == Top(less, s, r)
  {
    forall i | 0 <= i < |l| ensures l[i] in s && Rank(less, s, l[i]) == i {
      ListingRank(less, s, l, i);
    }
    forall x | x in Top(less, s, r) ensures x in l[..r] {
      var i :| 0 <= i < |l| && l[i] == x;
      assert l[..r][i] == x;
    }
  }
}
