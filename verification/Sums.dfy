/** Sums over a table, and how they react to an appended, replaced or re-weighed row. */
module Sums {

  function Sum<T>(s: seq<T>, f: T -> int): int {
    if |s| == 0 then 0 else Sum(s[..|s| - 1], f) + f(s[|s| - 1])
  }

  lemma {:induction false} SumSnoc<T>(s: seq<T>, x: T, f: T -> int)
    ensures Sum(s + [x], f) == Sum(s, f) + f(x)
  {
    assert (s + [x])[..|s|] == s;
  }

  lemma {:induction false} SumPair<T>(x: T, y: T, f: T -> int)
    ensures Sum([x, y], f) == f(x) + f(y)
  {
    SumSnoc([], x, f);
    assert [] + [x] == [x];
    SumSnoc([x], y, f);
    assert [x] + [y] == [x, y];
  }

  lemma {:induction false} SumConcat<T>(s: seq<T>, t: seq<T>, f: T -> int)
    ensures Sum(s + t, f) == Sum(s, f) + Sum(t, f)
  {
    if |t| == 0 {
      assert s + t == s;
    } else {
      var n := |t| - 1;
      assert s + t == (s + t[..n]) + [t[n]];
      SumConcat(s, t[..n], f);
      SumSnoc(s + t[..n], t[n], f);
    }
  }

  /** Two tables that weigh the same row by row have the same sum. */
  lemma {:induction false} SumSame<T, U>(s: seq<T>, t: seq<U>, f: T -> int, g: U -> int)
    requires |s| == |t|
    requires forall i :: 0 <= i < |s| ==> f(s[i]) == g(t[i])
    ensures Sum(s, f) == Sum(t, g)
  {
    if |s| > 0 {
      SumSame(s[..|s| - 1], t[..|s| - 1], f, g);
    }
  }

  /** Tables that differ in one row only: the sums differ by that row. */
  lemma {:induction false} SumDiff<T, U>(s: seq<T>, t: seq<U>, f: T -> int, g: U -> int, k: nat)
    requires k < |s| == |t|
    requires forall i :: 0 <= i < |s| && i != k ==> f(s[i]) == g(t[i])
    ensures Sum(t, g) - Sum(s, f) == g(t[k]) - f(s[k])
  {
    var n := |s| - 1;
    if k == n {
      SumSame(s[..n], t[..n], f, g);
    } else {
      SumDiff(s[..n], t[..n], f, g, k);
    }
  }

  lemma {:induction false} SumUpdate<T>(s: seq<T>, k: nat, x: T, f: T -> int)
    requires k < |s|
    ensures Sum(s[k := x], f) == Sum(s, f) - f(s[k]) + f(x)
  {
    SumDiff(s, s[k := x], f, f, k);
  }

  lemma {:induction false} SumNonNegative<T>(s: seq<T>, f: T -> int)
    requires forall i :: 0 <= i < |s| ==> f(s[i]) >= 0
    ensures Sum(s, f) >= 0
    ensures forall i :: 0 <= i < |s| ==> f(s[i]) <= Sum(s, f)
  {
    if |s| > 0 {
      SumNonNegative(s[..|s| - 1], f);
    }
  }

  lemma {:induction false} SumZero<T>(s: seq<T>, f: T -> int)
    requires forall i :: 0 <= i < |s| ==> f(s[i]) == 0
    ensures Sum(s, f) == 0
  {
    if |s| > 0 {
      SumZero(s[..|s| - 1], f);
    }
  }

  /** Weights that split pointwise split in the sum. */
  lemma {:induction false} SumSplit<T>(s: seq<T>, f: T -> int, g: T -> int, h: T -> int)
    requires forall i :: 0 <= i < |s| ==> f(s[i]) == g(s[i]) + h(s[i])
    ensures Sum(s, f) == Sum(s, g) + Sum(s, h)
  {
    if |s| > 0 {
      SumSplit(s[..|s| - 1], f, g, h);
    }
  }
}
