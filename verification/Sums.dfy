/** Weighted sums over a table's rows. */
module Sums {

  function SumBy<T>(s: seq<T>, f: T -> real): real {
    if s == [] then 0.0 else SumBy(s[..|s| - 1], f) + f(s[|s| - 1])
  }

  lemma SumAppend<T>(s: seq<T>, x: T, f: T -> real)
    ensures SumBy(s + [x], f) == SumBy(s, f) + f(x)
  {
  }

  lemma SumStep<T>(s: seq<T>, i: nat, f: T -> real)
    requires i < |s|
    ensures SumBy(s[..i + 1], f) == SumBy(s[..i], f) + f(s[i])
  {
    assert s[..i + 1] == s[..i] + [s[i]];
    SumAppend(s[..i], s[i], f);
  }

  lemma {:induction false} SumUpdate<T>(s: seq<T>, i: nat, x: T, f: T -> real)
    requires i < |s|
    ensures SumBy(s[i := x], f) == SumBy(s, f) - f(s[i]) + f(x)
  {
    var n := |s| - 1;
    if i == n {
      assert s[i := x][..n] == s[..n];
    } else {
      SumUpdate(s[..n], i, x, f);
      assert s[i := x][..n] == s[..n][i := x];
    }
  }

  lemma {:induction false} SumSame<T>(s: seq<T>, f: T -> real, g: T -> real)
    requires forall x <- s :: f(x) == g(x)
    ensures SumBy(s, f) == SumBy(s, g)
  {
    if s != [] {
      SumSame(s[..|s| - 1], f, g);
    }
  }

  lemma {:induction false} SumAdds<T>(s: seq<T>, f: T -> real, g: T -> real, h: T -> real)
    requires forall x <- s :: h(x) == f(x) + g(x)
    ensures SumBy(s, h) == SumBy(s, f) + SumBy(s, g)
  {
    if s != [] {
      SumAdds(s[..|s| - 1], f, g, h);
    }
  }
}
