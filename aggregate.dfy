/**
 * The aggregate calculator: `average` folds `acc + cur / arr.length` over
 * the list, starting from 0. Modelled over exact reals.
 */
module Aggregate {

  /** Reference definition: the sum of a list. */
  function Sum(xs: seq<real>): real
  {
    if |xs| == 0 then 0.0 else xs[0] + Sum(xs[1..])
  }

  /** The reducer of `average`: from `acc`, adds `cur / len` for each element, left to right. */
  function Reduce(xs: seq<real>, len: real, acc: real): real
    requires |xs| == 0 || len != 0.0
  {
    if |xs| == 0 then acc else Reduce(xs[1..], len, acc + xs[0] / len)
  }

  lemma DivAdd(a: real, b: real, c: real)
    requires c != 0.0
    ensures (a + b) / c == a / c + b / c
  {
  }

  /** Folding `acc + cur / len` adds the sum divided by `len`. */
  lemma {:induction false} ReduceIsScaledSum(xs: seq<real>, len: real, acc: real)
    requires len != 0.0
    ensures Reduce(xs, len, acc) == acc + Sum(xs) / len
  {
    if |xs| > 0 {
      var rest := Sum(xs[1..]);
      ReduceIsScaledSum(xs[1..], len, acc + xs[0] / len);
      assert Reduce(xs, len, acc) == (acc + xs[0] / len) + rest / len;
      assert Sum(xs) == xs[0] + rest;
      DivAdd(xs[0], rest, len);
    }
  }

  /** `average(arr)`: 0 for the empty list, the arithmetic mean otherwise. */
  function Average(xs: seq<real>): (r: real)
    ensures |xs| == 0 ==> r == 0.0
    ensures |xs| > 0 ==> r == Sum(xs) / |xs| as real
  {
    if |xs| == 0 then Reduce(xs, 0.0, 0.0)
    else
      ReduceIsScaledSum(xs, |xs| as real, 0.0);
      Reduce(xs, |xs| as real, 0.0)
  }

  lemma {:induction false} SumConcat(xs: seq<real>, ys: seq<real>)
    ensures Sum(xs + ys) == Sum(xs) + Sum(ys)
  {
    if |xs| == 0 {
      assert xs + ys == ys;
    } else {
      assert (xs + ys)[1..] == xs[1..] + ys;
      SumConcat(xs[1..], ys);
    }
  }

  /** Appending one value: the new mean times the new length is the old total plus that value. */
  lemma AverageAppend(xs: seq<real>, x: real)
    ensures (|xs| as real + 1.0) * Average(xs + [x]) == |xs| as real * Average(xs) + x
  {
    var n := |xs| as real;
    SumConcat(xs, [x]);
    assert [x][1..] == [];
    var total := Sum(xs + [x]);
    assert total == Sum(xs) + x;
    assert |xs + [x]| as real == n + 1.0;
    assert Average(xs + [x]) == total / (n + 1.0);
    assert (n + 1.0) * (total / (n + 1.0)) == total;
    if |xs| > 0 {
      assert n * (Sum(xs) / n) == Sum(xs);
    }
  }

  /** A one-element list averages to its element. */
  lemma AverageSingleton(x: real)
    ensures Average([x]) == x
  {
    assert [x][1..] == [];
    assert Sum([x]) == x;
    assert Average([x]) == x / 1.0;
  }

  /** The mean of 2, 4 and 6 is 4. */
  lemma AverageExample()
    ensures Average([2.0, 4.0, 6.0]) == 4.0
  {
  }

  lemma {:induction false} SumBounds(xs: seq<real>, lo: real, hi: real)
    requires forall i | 0 <= i < |xs| :: lo <= xs[i] <= hi
    ensures |xs| as real * lo <= Sum(xs) <= |xs| as real * hi
  {
    if |xs| > 0 {
      SumBounds(xs[1..], lo, hi);
    }
  }

  /** The mean of a non-empty list lies between any lower and any upper bound of its elements. */
  lemma AverageBounds(xs: seq<real>, lo: real, hi: real)
    requires |xs| > 0
    requires forall i | 0 <= i < |xs| :: lo <= xs[i] <= hi
    ensures lo <= Average(xs) <= hi
  {
    SumBounds(xs, lo, hi);
    var n := |xs| as real;
    assert Sum(xs) / n >= (n * lo) / n;
    assert Sum(xs) / n <= (n * hi) / n;
  }
}
