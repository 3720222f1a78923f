/** Python's built-in `sum` over a list of amounts, and the facts about it the model needs. */
module Sums {

  /** `sum(xs)`: the total of every entry, 0 for the empty list. */
  function Sum(xs: seq<real>): real
  {
    if |xs| == 0 then 0.0 else xs[0] + Sum(xs[1..])
  }

  /** Summing a concatenation is summing each part. */
  lemma {:induction false} SumAppend(a: seq<real>, b: seq<real>)
    ensures Sum(a + b) == Sum(a) + Sum(b)
  {
    if |a| == 0 {
      assert a + b == b;
    } else {
      assert (a + b)[1..] == a[1..] + b;
      SumAppend(a[1..], b);
    }
  }

  /** A list whose entries are all non-negative has a non-negative sum. */
  lemma {:induction false} SumNonNegative(xs: seq<real>)
    requires forall i :: 0 <= i < |xs| ==> xs[i] >= 0.0
    ensures Sum(xs) >= 0.0
  {
    if |xs| > 0 {
      SumNonNegative(xs[1..]);
    }
  }

  /** A list whose entries are all strictly positive sums to zero exactly when it is empty. */
  lemma {:induction false} SumPositiveZero(xs: seq<real>)
    requires forall i :: 0 <= i < |xs| ==> xs[i] > 0.0
    ensures Sum(xs) == 0.0 <==> |xs| == 0
    ensures |xs| > 0 ==> Sum(xs) > 0.0
  {
    if |xs| > 0 {
      SumNonNegative(xs[1..]);
    }
  }

  /** n equal entries v sum to n * v. */
  lemma {:induction false} SumConstant(n: nat, v: real)
    ensures Sum(seq(n, _ => v)) == (n as real) * v
  {
    if n > 0 {
      assert seq(n, _ => v)[1..] == seq(n - 1, _ => v);
      SumConstant(n - 1, v);
      RunStep(n, v);
    }
  }

  /** One more entry adds one more v: n * v == (n - 1) * v + v. */
  lemma RunStep(n: nat, v: real)
    requires n > 0
    ensures (n as real) * v == ((n - 1) as real) * v + v
  {
  }
}
