/** Sums over sequences, for counting what a set of goroutines holds. */
module Sums {

  function Sum<T>(xs: seq<T>, f: T -> nat): nat {
    if xs == [] then 0 else Sum(xs[..|xs| - 1], f) + f(xs[|xs| - 1])
  }

  lemma {:induction false} SumUpdate<T>(xs: seq<T>, i: nat, x: T, f: T -> nat)
    requires i < |xs|
    ensures Sum(xs[i := x], f) + f(xs[i]) == Sum(xs, f) + f(x)
  {
    var n := |xs| - 1;
    if i == n {
      assert xs[i := x][..n] == xs[..n];
    } else {
      SumUpdate(xs[..n], i, x, f);
      assert xs[i := x][..n] == xs[..n][i := x];
    }
  }

  lemma {:induction false} SumAppend<T>(xs: seq<T>, x: T, f: T -> nat)
    ensures Sum(xs + [x], f) == Sum(xs, f) + f(x)
  {
    assert (xs + [x])[..|xs|] == xs;
  }

  /** One element is replaced and the measure of the others does not change. */
  lemma {:induction false} SumOthers<T>(xs: seq<T>, i: nat, x: T, f: T -> nat, g: T -> nat)
    requires i < |xs| && forall m | 0 <= m < |xs| && m != i :: f(xs[m]) == g(xs[m])
    ensures Sum(xs[i := x], g) + f(xs[i]) == Sum(xs, f) + g(x)
  {
    SumUpdate(xs, i, x, g);
    SumDiffer(xs, i, f, g);
  }

  lemma {:induction false} SumDiffer<T>(xs: seq<T>, i: nat, f: T -> nat, g: T -> nat)
    requires i < |xs| && forall m | 0 <= m < |xs| && m != i :: f(xs[m]) == g(xs[m])
    ensures Sum(xs, g) + f(xs[i]) == Sum(xs, f) + g(xs[i])
  {
    var n := |xs| - 1;
    if i == n {
      SumSame(xs[..n], f, g);
    } else {
      SumDiffer(xs[..n], i, f, g);
    }
  }

  lemma {:induction false} SumSame<T>(xs: seq<T>, f: T -> nat, g: T -> nat)
    requires forall m | 0 <= m < |xs| :: f(xs[m]) == g(xs[m])
    ensures Sum(xs, f) == Sum(xs, g)
  {
    if xs != [] {
      SumSame(xs[..|xs| - 1], f, g);
    }
  }

  lemma {:induction false} SumZero<T>(xs: seq<T>, f: T -> nat)
    requires forall i | 0 <= i < |xs| :: f(xs[i]) == 0
    ensures Sum(xs, f) == 0
  {
    if xs != [] {
      SumZero(xs[..|xs| - 1], f);
    }
  }

  lemma {:induction false} SumLe<T>(xs: seq<T>, f: T -> nat, g: T -> nat, h: T -> nat)
    requires forall i | 0 <= i < |xs| :: f(xs[i]) <= g(xs[i]) + h(xs[i])
    ensures Sum(xs, f) <= Sum(xs, g) + Sum(xs, h)
  {
    if xs != [] {
      SumLe(xs[..|xs| - 1], f, g, h);
    }
  }

  lemma {:induction false} SumHead<T>(xs: seq<T>, f: T -> nat)
    requires xs != []
    ensures Sum(xs, f) == f(xs[0]) + Sum(xs[1..], f)
  {
    var n := |xs| - 1;
    if 0 < n {
      SumHead(xs[..n], f);
      assert xs[..n][1..] == xs[1..][..n - 1];
    } else {
      assert xs[..n] == [] && xs[1..] == [];
    }
  }

  lemma {:induction false} SumConcat<T>(xs: seq<T>, ys: seq<T>, f: T -> nat)
    ensures Sum(xs + ys, f) == Sum(xs, f) + Sum(ys, f)
  {
    if ys == [] {
      assert xs + ys == xs;
    } else {
      var n := |ys| - 1;
      SumConcat(xs, ys[..n], f);
      assert (xs + ys)[..|xs| + n] == xs + ys[..n];
    }
  }
}
