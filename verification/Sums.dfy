/** Sums of a natural-valued function over a finite set. */
module Sums {

  ghost function Sum<T>(s: set<T>, f: T -> nat): (n: nat)
    decreases |s|
  {
    if s == {} then 0
    else
      var x :| x in s;
      f(x) + Sum(s - {x}, f)
  }

  lemma {:induction false} SumSplit<T>(s: set<T>, f: T -> nat, x: T)
    requires x in s
    ensures Sum(s, f) == f(x) + Sum(s - {x}, f)
    decreases |s|
  {
    var y :| y in s && Sum(s, f) == f(y) + Sum(s - {y}, f);
    if x != y {
      SumSplit(s - {y}, f, x);
      SumSplit(s - {x}, f, y);
      assert s - {y} - {x} == s - {x} - {y};
    }
  }

  lemma {:induction false} SumSame<T>(s: set<T>, f: T -> nat, g: T -> nat)
    requires forall x | x in s :: f(x) == g(x)
    ensures Sum(s, f) == Sum(s, g)
    decreases |s|
  {
    if s != {} {
      var x :| x in s;
      SumSplit(s, f, x);
      SumSplit(s, g, x);
      SumSame(s - {x}, f, g);
    }
  }

  /** Lowering the function at one place lowers the sum by as much. */
  lemma SumDrop<T>(s: set<T>, f: T -> nat, g: T -> nat, x: T)
    requires x in s && forall y | y in s && y != x :: f(y) == g(y)
    ensures Sum(s, f) - f(x) == Sum(s, g) - g(x)
  {
    SumSplit(s, f, x);
    SumSplit(s, g, x);
    SumSame(s - {x}, f, g);
  }
}
