/** Values and arithmetic shared by every model in this project. */
module Common {
  datatype Option<+T> = None | Some(value: T)

  datatype Result<+T, +E> = Ok(value: T) | Err(error: E)

  /** Timestamps are integers counting milliseconds since the epoch, in UTC. */
  const DAY_MS: int := 86_400_000

  /** The UTC calendar day of a timestamp; Dafny's division by a positive number rounds down. */
  function Day(t: int): (d: int)
    ensures 24 * 60 * 60 * 1000 * d <= t < 24 * 60 * 60 * 1000 * (d + 1)
  {
    t / DAY_MS
  }

  function Max(a: real, b: real): real {
    if a >= b then a else b
  }

  function Min(a: real, b: real): real {
    if a <= b then a else b
  }

  function Abs(a: real): real {
    if a < 0.0 then -a else a
  }

  /** Rounding to the nearest integer, ties to the even one: Python's default. */
  function RoundHalfEven(x: real): (r: int)
    ensures -0.5 <= r as real - x <= 0.5
    ensures r as real - x == 0.5 || r as real - x == -0.5 ==> r % 2 == 0
  {
    var down := x.Floor;
    var rest := x - down as real;
    if rest < 0.5 || (rest == 0.5 && down % 2 == 0) then down else down + 1
  }

  function IntMax(a: int, b: int): int {
    if a >= b then a else b
  }

  /** Lexicographic order on symbol names, by character code. */
  predicate StringLe(a: string, b: string) {
    |a| == 0 || (|b| > 0 && (a[0] < b[0] || (a[0] == b[0] && StringLe(a[1..], b[1..]))))
  }

  /** The contents of a bounded deque that keeps the newest `n` of the elements in `xs`. */
  function LastN<T>(xs: seq<T>, n: nat): (r: seq<T>)
    ensures |r| == if |xs| <= n then |xs| else n
    ensures forall i :: 0 <= i < |r| ==> r[i] == xs[|xs| - |r| + i]
  {
    if |xs| <= n then xs else xs[|xs| - n..]
  }

  /** Appending to a bounded deque keeps the newest elements of the whole log. */
  lemma {:induction false} LastNAppend<T>(log: seq<T>, x: T, n: nat)
    ensures LastN(LastN(log, n) + [x], n) == LastN(log + [x], n)
  {
    var a, b := LastN(LastN(log, n) + [x], n), LastN(log + [x], n);
    assert |a| == |b|;
    forall i | 0 <= i < |a| ensures a[i] == b[i] {
    }
  }

  /** The keys of a dict built from these names: each once, in order of first appearance. */
  function Once(names: seq<string>): (r: seq<string>)
    ensures |r| <= |names|
    ensures forall x :: x in r <==> x in names
    ensures forall i, j :: 0 <= i < j < |r| ==> r[i] != r[j]
  {
    if |names| == 0 then []
    else
      var front, last := Once(names[..|names| - 1]), names[|names| - 1];
      assert names == names[..|names| - 1] + [last];
      if last in front then front else front + [last]
  }

  /** Python's `xs[-limit:]`; a limit of zero selects the whole list, a negative one drops from the front. */
  function Tail<T>(xs: seq<T>, limit: int): seq<T> {
    if limit > 0 then LastN(xs, limit)
    else if -limit <= |xs| then xs[-limit..]
    else []
  }

  lemma {:induction false} SplitLast<T>(xs: seq<T>, n: nat)
    requires n < |xs|
    ensures xs[..|xs| - 1] + [xs[|xs| - 1]] == xs && xs[..|xs| - 1][..n] == xs[..n]
  {
  }

  // ---------------------------------------------------------------------
  // Sums over records
  // ---------------------------------------------------------------------

  function Sum<T>(f: T -> real, xs: seq<T>): real {
    if |xs| == 0 then 0.0 else Sum(f, xs[..|xs| - 1]) + f(xs[|xs| - 1])
  }

  lemma {:induction false} SumAppend<T>(f: T -> real, xs: seq<T>, x: T)
    ensures Sum(f, xs + [x]) == Sum(f, xs) + f(x)
  {
    assert (xs + [x])[..|xs|] == xs;
  }

  lemma {:induction false} SumOfTwo<T>(f: T -> real, p: T, q: T)
    ensures Sum(f, [p, q]) == f(p) + f(q) && Sum(f, [q]) == f(q)
  {
    SumAppend(f, [], p);
    SumAppend(f, [], q);
    SumAppend(f, [p], q);
    assert [] + [p] == [p] && [] + [q] == [q] && [p] + [q] == [p, q];
  }

  lemma {:induction false} SumConcat<T>(f: T -> real, xs: seq<T>, ys: seq<T>)
    ensures Sum(f, xs + ys) == Sum(f, xs) + Sum(f, ys)
  {
    if |ys| == 0 {
      assert xs + ys == xs;
    } else {
      var front := ys[..|ys| - 1];
      assert xs + ys == (xs + front) + [ys[|ys| - 1]];
      SumConcat(f, xs, front);
      SumAppend(f, xs + front, ys[|ys| - 1]);
    }
  }

  lemma {:induction false} SumAround<T>(f: T -> real, before: seq<T>, x: T, after: seq<T>)
    ensures Sum(f, before + [x] + after) == Sum(f, before + after) + f(x)
  {
    SumConcat(f, before + [x], after);
    SumAppend(f, before, x);
    SumConcat(f, before, after);
  }

  lemma {:induction false} SumRemove<T>(f: T -> real, xs: seq<T>, i: nat)
    requires i < |xs|
    ensures Sum(f, xs[..i] + xs[i + 1..]) == Sum(f, xs) - f(xs[i])
  {
    var before, after := xs[..i], xs[i + 1..];
    calc {
      Sum(f, xs);
      { assert xs == before + [xs[i]] + after; }
      Sum(f, before + [xs[i]] + after);
      { SumAround(f, before, xs[i], after); }
      Sum(f, before + after) + f(xs[i]);
    }
  }

  lemma {:induction false} SumUpdate<T>(f: T -> real, xs: seq<T>, i: nat, y: T)
    requires i < |xs|
    ensures Sum(f, xs[i := y]) == Sum(f, xs) - f(xs[i]) + f(y)
  {
    SumRemove(f, xs, i);
    SumAround(f, xs[..i], y, xs[i + 1..]);
    assert xs[..i] + [y] + xs[i + 1..] == xs[i := y];
  }

  /** A rearrangement holds the last element somewhere, and the rest is a rearrangement of the rest. */
  lemma {:induction false} SplitPermutation<T>(xs: seq<T>, ys: seq<T>) returns (i: nat)
    requires multiset(xs) == multiset(ys) && |xs| > 0
    ensures |ys| == |xs| && i < |ys| && ys[i] == xs[|xs| - 1]
    ensures ys == ys[..i] + [ys[i]] + ys[i + 1..]
    ensures multiset(xs[..|xs| - 1]) == multiset(ys[..i] + ys[i + 1..])
  {
    var x, front := xs[|xs| - 1], xs[..|xs| - 1];
    assert |multiset(xs)| == |xs| && |multiset(ys)| == |ys|;
    assert xs == front + [x];
    assert x in multiset(ys);
    i :| 0 <= i < |ys| && ys[i] == x;
    var rest := ys[..i] + ys[i + 1..];
    assert ys == ys[..i] + [x] + ys[i + 1..];
    assert multiset(ys) == multiset(rest) + multiset{x};
    assert multiset(front) == multiset(xs) - multiset{x};
  }

  /** Sums do not depend on the order in which a query lists its rows. */
  lemma {:induction false} SumPermutation<T>(f: T -> real, xs: seq<T>, ys: seq<T>)
    requires multiset(xs) == multiset(ys)
    ensures Sum(f, xs) == Sum(f, ys)
  {
    assert |multiset(xs)| == |xs| && |multiset(ys)| == |ys|;
    if |xs| != 0 {
      var i := SplitPermutation(xs, ys);
      SumPermutation(f, xs[..|xs| - 1], ys[..i] + ys[i + 1..]);
      SumRemove(f, ys, i);
    }
  }

  /** If every term is multiplied by `c`, so is the sum. */
  lemma {:induction false} SumScale<T>(f: T -> real, c: real, xs: seq<T>, ys: seq<T>)
    requires |xs| == |ys|
    requires forall i :: 0 <= i < |xs| ==> f(ys[i]) == c * f(xs[i])
    ensures Sum(f, ys) == c * Sum(f, xs)
  {
    if |xs| != 0 {
      SumScale(f, c, xs[..|xs| - 1], ys[..|ys| - 1]);
    }
  }

  lemma {:induction false} SumEqual<T>(f: T -> real, xs: seq<T>, ys: seq<T>)
    requires |xs| == |ys|
    requires forall i :: 0 <= i < |xs| ==> f(ys[i]) == f(xs[i])
    ensures Sum(f, ys) == Sum(f, xs)
  {
    if |xs| != 0 {
      SumEqual(f, xs[..|xs| - 1], ys[..|ys| - 1]);
    }
  }

  lemma {:induction false} SumAgree<T, U>(f: T -> real, g: U -> real, xs: seq<T>, ys: seq<U>)
    requires |xs| == |ys|
    requires forall i :: 0 <= i < |xs| ==> g(ys[i]) == f(xs[i])
    ensures Sum(g, ys) == Sum(f, xs)
  {
    if |xs| != 0 {
      SumAgree(f, g, xs[..|xs| - 1], ys[..|ys| - 1]);
    }
  }

  lemma {:induction false} SumDifference<T>(f: T -> real, g: T -> real, h: T -> real, xs: seq<T>)
    requires forall i :: 0 <= i < |xs| ==> h(xs[i]) == f(xs[i]) - g(xs[i])
    ensures Sum(h, xs) == Sum(f, xs) - Sum(g, xs)
  {
    if |xs| != 0 {
      SumDifference(f, g, h, xs[..|xs| - 1]);
    }
  }

  lemma {:induction false} SumNonNegative<T>(f: T -> real, xs: seq<T>)
    requires forall i :: 0 <= i < |xs| ==> f(xs[i]) >= 0.0
    ensures Sum(f, xs) >= 0.0
  {
    if |xs| != 0 {
      SumNonNegative(f, xs[..|xs| - 1]);
    }
  }

  /** The elements that satisfy `p`, in order; Python's filtering comprehension. */
  function Filter<T>(p: T -> bool, xs: seq<T>): (r: seq<T>)
    ensures forall i :: 0 <= i < |r| ==> p(r[i]) && r[i] in xs
    ensures forall i :: 0 <= i < |xs| && p(xs[i]) ==> xs[i] in r
    ensures (forall i :: 0 <= i < |xs| ==> !p(xs[i])) ==> r == []
    ensures |r| <= |xs|
  {
    if |xs| == 0 then []
    else
      var front := Filter(p, xs[..|xs| - 1]);
      if p(xs[|xs| - 1]) then front + [xs[|xs| - 1]] else front
  }

  // ---------------------------------------------------------------------
  // Counting and adding up where a condition holds
  // ---------------------------------------------------------------------

  function CountIf<T>(p: T -> bool, xs: seq<T>): nat {
    if |xs| == 0 then 0 else CountIf(p, xs[..|xs| - 1]) + (if p(xs[|xs| - 1]) then 1 else 0)
  }

  function SumIf<T>(p: T -> bool, f: T -> real, xs: seq<T>): real {
    if |xs| == 0 then 0.0 else SumIf(p, f, xs[..|xs| - 1]) + (if p(xs[|xs| - 1]) then f(xs[|xs| - 1]) else 0.0)
  }

  lemma {:induction false} FilteredCount<T>(p: T -> bool, xs: seq<T>)
    ensures |Filter(p, xs)| == CountIf(p, xs)
  {
    if |xs| > 0 {
      FilteredCount(p, xs[..|xs| - 1]);
    }
  }

  lemma {:induction false} FilteredSum<T>(p: T -> bool, f: T -> real, xs: seq<T>)
    ensures Sum(f, Filter(p, xs)) == SumIf(p, f, xs)
  {
    if |xs| > 0 {
      FilteredSum(p, f, xs[..|xs| - 1]);
      SumAppend(f, Filter(p, xs[..|xs| - 1]), xs[|xs| - 1]);
    }
  }

  // ---------------------------------------------------------------------
  // Real arithmetic used by the scaling and bound proofs
  // ---------------------------------------------------------------------

  /** Named products and ratios let proofs reason about them without expanding them. */
  function Product(a: real, b: real): real {
    a * b
  }

  function Ratio(a: real, b: real): real
    requires b != 0.0
  {
    a / b
  }

  lemma {:induction false} ProductNonNegative(a: real, b: real)
    requires a >= 0.0 && b >= 0.0
    ensures a * b >= 0.0
  {
  }

  lemma {:induction false} QuotientUnique(x: real, y: real, q: real)
    requires y != 0.0 && x == q * y
    ensures x / y == q
  {
  }

  lemma {:induction false} ScaleBothSides(k: real, a: real, b: real)
    requires k != 0.0 && b != 0.0
    ensures k * b != 0.0 && (k * a) / (k * b) == a / b
  {
    var q := a / b;
    assert k * a == q * (k * b);
    QuotientUnique(k * a, k * b, q);
  }

  lemma {:induction false} ScaleQuotient(k: real, a: real, b: real)
    requires b != 0.0
    ensures (k * a) / b == k * (a / b)
  {
    var q := a / b;
    assert k * a == (k * q) * b;
    QuotientUnique(k * a, b, k * q);
  }

  lemma {:induction false} ScaleOrder(k: real, a: real, b: real)
    requires k > 0.0
    ensures k * a <= k * b <==> a <= b
    ensures k * a < k * b <==> a < b
    ensures k * a == k * b <==> a == b
    ensures k * a <= 0.0 <==> a <= 0.0
    ensures k * a < 0.0 <==> a < 0.0
    ensures k * a == 0.0 <==> a == 0.0
  {
    if a < b {
      assert k * (b - a) > 0.0;
    } else if a > b {
      assert k * (a - b) > 0.0;
    }
    if a < 0.0 {
      assert k * (0.0 - a) > 0.0;
    } else if a > 0.0 {
      assert k * a > 0.0;
    }
  }

  lemma {:induction false} ScaleExtremes(k: real, a: real, b: real)
    requires k > 0.0
    ensures Max(k * a, k * b) == k * Max(a, b)
    ensures Min(k * a, k * b) == k * Min(a, b)
    ensures Abs(k * a) == k * Abs(a)
    ensures Max(k * a, 0.0) == k * Max(a, 0.0)
  {
    ScaleOrder(k, a, b);
    ScaleOrder(k, a, 0.0);
    if a < 0.0 {
      assert -(k * a) == k * (-a);
    }
  }
}
