/** Totals of an integer measure over a sequence. */
module Sums {
  function Total<T>(xs: seq<T>, f: T -> int): int {
    if xs == [] then 0 else Total(xs[..|xs| - 1], f) + f(xs[|xs| - 1])
  }

  lemma {:induction false} TotalUpdate<T>(xs: seq<T>, f: T -> int, i: nat, x: T)
    requires i < |xs|
    ensures Total(xs[i := x], f) == Total(xs, f) - f(xs[i]) + f(x)
  {
    var init := xs[..|xs| - 1];
    if i == |xs| - 1 {
      assert xs[i := x][..|xs| - 1] == init;
    } else {
      TotalUpdate(init, f, i, x);
      assert xs[i := x][..|xs| - 1] == init[i := x];
    }
  }

  /** Pointwise bounds carry over to totals. */
  lemma {:induction false} TotalWithin<T>(xs: seq<T>, f: T -> int, g: T -> int, c: nat)
    requires forall i | 0 <= i < |xs| :: 0 <= f(xs[i]) <= c * g(xs[i])
    ensures 0 <= Total(xs, f) <= c * Total(xs, g)
  {
    if xs == [] {
    } else {
      var init := xs[..|xs| - 1];
      TotalWithin(init, f, g, c);
      assert c * Total(xs, g) == c * Total(init, g) + c * g(xs[|xs| - 1]);
    }
  }

  lemma {:induction false} TotalAdds<T>(xs: seq<T>, f: T -> int, g: T -> int, k: T -> int)
    requires forall i | 0 <= i < |xs| :: f(xs[i]) == g(xs[i]) + k(xs[i])
    ensures Total(xs, f) == Total(xs, g) + Total(xs, k)
  {
    if xs == [] {
    } else {
      TotalAdds(xs[..|xs| - 1], f, g, k);
    }
  }

  /** A total of non-negative terms is zero exactly when every term is. */
  lemma {:induction false} TotalZero<T>(xs: seq<T>, f: T -> int)
    requires forall i | 0 <= i < |xs| :: f(xs[i]) >= 0
    ensures Total(xs, f) >= 0
    ensures Total(xs, f) == 0 <==> forall i | 0 <= i < |xs| :: f(xs[i]) == 0
  {
    if xs == [] {
    } else {
      TotalZero(xs[..|xs| - 1], f);
    }
  }

  lemma {:induction false} TotalSame<T>(xs: seq<T>, f: T -> int, g: T -> int)
    requires forall i | 0 <= i < |xs| :: f(xs[i]) == g(xs[i])
    ensures Total(xs, f) == Total(xs, g)
  {
    if xs == [] {
    } else {
      TotalSame(xs[..|xs| - 1], f, g);
    }
  }

  lemma {:induction false} TotalOfEqual<T>(xs: seq<T>, ys: seq<T>, f: T -> int)
    requires |xs| == |ys| && forall i | 0 <= i < |xs| :: f(xs[i]) == f(ys[i])
    ensures Total(xs, f) == Total(ys, f)
  {
    if xs == [] {
    } else {
      TotalOfEqual(xs[..|xs| - 1], ys[..|ys| - 1], f);
    }
  }

  lemma {:induction false} TotalMono<T>(xs: seq<T>, f: T -> int, g: T -> int)
    requires forall i | 0 <= i < |xs| :: f(xs[i]) <= g(xs[i])
    ensures Total(xs, f) <= Total(xs, g)
  {
    if xs == [] {
    } else {
      TotalMono(xs[..|xs| - 1], f, g);
    }
  }

  lemma {:induction false} TotalAtMost<T>(xs: seq<T>, f: T -> int)
    requires forall i | 0 <= i < |xs| :: f(xs[i]) <= 1
    ensures Total(xs, f) <= |xs|
  {
    if xs == [] {
    } else {
      TotalAtMost(xs[..|xs| - 1], f);
    }
  }

  lemma {:induction false} TotalEach<T>(xs: seq<T>, f: T -> int, c: int)
    requires forall i | 0 <= i < |xs| :: f(xs[i]) == c
    ensures Total(xs, f) == |xs| * c
  {
    if xs == [] {
    } else {
      TotalEach(xs[..|xs| - 1], f, c);
      assert |xs| * c == (|xs| - 1) * c + c;
    }
  }

  lemma TotalAppend<T>(xs: seq<T>, f: T -> int, x: T)
    ensures Total(xs + [x], f) == Total(xs, f) + f(x)
  {
    assert (xs + [x])[..|xs|] == xs;
  }
}
