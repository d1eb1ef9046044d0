/** Finite sums over sets, for measures and counts taken over table rows. */
module Sums {

  ghost function Sum<T>(s: set<T>, f: T -> int): int
    decreases |s|
  {
    if s == {} then 0
    else
      var x :| x in s;
      f(x) + Sum(s - {x}, f)
  }

  /** The sum does not depend on which element is taken out first. */
  lemma {:induction false} SumSplit<T>(s: set<T>, x: T, f: T -> int)
    requires x in s
    ensures Sum(s, f) == f(x) + Sum(s - {x}, f)
    decreases |s|
  {
    var y :| y in s && Sum(s, f) == f(y) + Sum(s - {y}, f);
    if y != x {
      SumSplit(s - {y}, x, f);
      SumSplit(s - {x}, y, f);
      assert s - {y} - {x} == s - {x} - {y};
    }
  }

  /** If g drops below f by at least one on t, and never exceeds it, the sum drops by at least |t|. */
  lemma {:induction false} SumDrop<T>(s: set<T>, t: set<T>, f: T -> int, g: T -> int)
    requires t <= s
    requires forall x | x in t :: g(x) + 1 <= f(x)
    requires forall x | x in s :: g(x) <= f(x)
    ensures Sum(s, g) + |t| <= Sum(s, f)
    decreases |s|
  {
    if s != {} {
      var x :| x in s;
      SumSplit(s, x, f);
      SumSplit(s, x, g);
      SumDrop(s - {x}, t - {x}, f, g);
      assert x !in t ==> t - {x} == t;
    }
  }

  lemma OneTimesMore(n: int, k: int)
    ensures (n + 1) * k == n * k + k
  {
  }

  lemma {:induction false} SumBounds<T>(s: set<T>, f: T -> int, hi: int)
    requires forall x | x in s :: 0 <= f(x) <= hi
    ensures 0 <= Sum(s, f) <= |s| * hi
    decreases |s|
  {
    if s != {} {
      var x :| x in s;
      SumSplit(s, x, f);
      SumBounds(s - {x}, f, hi);
      OneTimesMore(|s| - 1, hi);
    }
  }

  lemma {:induction false} SumPositive<T>(s: set<T>, x: T, f: T -> int)
    requires x in s && f(x) > 0
    requires forall y | y in s :: 0 <= f(y)
    ensures Sum(s, f) > 0
  {
    SumSplit(s, x, f);
    SumNonNegative(s - {x}, f);
  }

  lemma {:induction false} SumNonNegative<T>(s: set<T>, f: T -> int)
    requires forall y | y in s :: 0 <= f(y)
    ensures Sum(s, f) >= 0
    decreases |s|
  {
    if s != {} {
      var x :| x in s;
      SumSplit(s, x, f);
      SumNonNegative(s - {x}, f);
    }
  }

  lemma {:induction false} SumSame<T>(s: set<T>, f: T -> int, g: T -> int)
    requires forall x | x in s :: f(x) == g(x)
    ensures Sum(s, f) == Sum(s, g)
    decreases |s|
  {
    if s != {} {
      var x :| x in s;
      SumSplit(s, x, f);
      SumSplit(s, x, g);
      SumSame(s - {x}, f, g);
    }
  }

  /** If g exceeds f by exactly one on t and equals it elsewhere, the sum grows by |t|. */
  lemma {:induction false} SumGrowth<T>(s: set<T>, t: set<T>, f: T -> int, g: T -> int)
    requires t <= s
    requires forall x | x in t :: g(x) == f(x) + 1
    requires forall x | x in s - t :: g(x) == f(x)
    ensures Sum(s, g) == Sum(s, f) + |t|
    decreases |s|
  {
    if t == {} {
      SumSame(s, f, g);
    } else {
      var x :| x in t;
      SumSplit(s, x, f);
      SumSplit(s, x, g);
      SumGrowth(s - {x}, t - {x}, f, g);
    }
  }

  lemma {:induction false} SumComplement<T>(s: set<T>, c: int, f: T -> int, g: T -> int)
    requires forall x | x in s :: g(x) == c - f(x)
    ensures Sum(s, g) == |s| * c - Sum(s, f)
    decreases |s|
  {
    if s != {} {
      var x :| x in s;
      SumSplit(s, x, f);
      SumSplit(s, x, g);
      SumComplement(s - {x}, c, f, g);
      OneTimesMore(|s| - 1, c);
    }
  }
}
