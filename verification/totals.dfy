/**
  Aggregate figures of a cash-flow vector (main.py, `index()`, lines 67-70):
  total invested (`aporte_total`), total received (`retorno_total`), profit
  (`lucro`) and the overall return ratio (`rentabilidade`).
*/
module Totals {
  import opened Wrappers
  import opened Sums

  /** `[-v for v in xs if v < 0]`: the size of every outflow, in order. */
  function Outflows(xs: seq<real>): (r: seq<real>)
    ensures |r| <= |xs|
    ensures forall i :: 0 <= i < |r| ==> r[i] > 0.0
    ensures |r| == 0 <==> forall i :: 0 <= i < |xs| ==> xs[i] >= 0.0
  {
    if |xs| == 0 then []
    else (if xs[0] < 0.0 then [-xs[0]] else []) + Outflows(xs[1..])
  }

  /** `[v for v in xs if v > 0]`: every inflow, in order. */
  function Inflows(xs: seq<real>): (r: seq<real>)
    ensures |r| <= |xs|
    ensures forall i :: 0 <= i < |r| ==> r[i] > 0.0
    ensures |r| == 0 <==> forall i :: 0 <= i < |xs| ==> xs[i] <= 0.0
  {
    if |xs| == 0 then []
    else (if xs[0] > 0.0 then [xs[0]] else []) + Inflows(xs[1..])
  }

  /** Received minus invested is the plain sum of the vector: zero entries and signs cancel nothing away. */
  lemma {:induction false} NetIsSum(xs: seq<real>)
    ensures Sum(Inflows(xs)) - Sum(Outflows(xs)) == Sum(xs)
  {
    if |xs| > 0 {
      NetIsSum(xs[1..]);
      SumAppend(if xs[0] < 0.0 then [-xs[0]] else [], Outflows(xs[1..]));
      SumAppend(if xs[0] > 0.0 then [xs[0]] else [], Inflows(xs[1..]));
    }
  }

  /** Nothing is invested exactly when no entry of the vector is negative. */
  lemma {:induction false} InvestedZero(xs: seq<real>)
    ensures Sum(Outflows(xs)) >= 0.0
    ensures Sum(Outflows(xs)) == 0.0 <==> forall i :: 0 <= i < |xs| ==> xs[i] >= 0.0
  {
    SumPositiveZero(Outflows(xs));
  }

  /** Nothing is received exactly when no entry of the vector is positive. */
  lemma {:induction false} ReceivedZero(xs: seq<real>)
    ensures Sum(Inflows(xs)) >= 0.0
    ensures Sum(Inflows(xs)) == 0.0 <==> forall i :: 0 <= i < |xs| ==> xs[i] <= 0.0
  {
    SumPositiveZero(Inflows(xs));
  }

  /** Every entry negated, in order: the outflow list of a run of outflows (a proof helper). */
  function Negated(xs: seq<real>): (r: seq<real>)
    ensures |r| == |xs| && forall i :: 0 <= i < |xs| ==> r[i] == -xs[i]
  {
    if |xs| == 0 then [] else [-xs[0]] + Negated(xs[1..])
  }

  /** A negative entry in front adds its size in front of the outflows. */
  lemma OutflowsCons(x: real, ys: seq<real>)
    requires x < 0.0
    ensures Outflows([x] + ys) == [-x] + Outflows(ys)
  {
  }

  /** Entries that are all negative each add their size to the amount invested, in order. */
  lemma {:induction false} OutflowsNegativeRun(run: seq<real>, rest: seq<real>)
    requires forall i :: 0 <= i < |run| ==> run[i] < 0.0
    ensures Outflows(run + rest) == Negated(run) + Outflows(rest)
  {
    if |run| > 0 {
      assert run + rest == [run[0]] + (run[1..] + rest);
      OutflowsCons(run[0], run[1..] + rest);
      OutflowsNegativeRun(run[1..], rest);
    } else {
      assert run + rest == rest;
    }
  }

  /** Entries that are not positive add nothing to the amount received. */
  lemma {:induction false} InflowsNegativeRun(run: seq<real>, rest: seq<real>)
    requires forall i :: 0 <= i < |run| ==> run[i] <= 0.0
    ensures Inflows(run + rest) == Inflows(rest)
  {
    if |run| > 0 {
      assert (run + rest)[1..] == run[1..] + rest;
      InflowsNegativeRun(run[1..], rest);
    } else {
      assert run + rest == rest;
    }
  }

  /** `rentabilidade`: profit over investment, absent exactly when nothing was invested. */
  function ReturnRatio(invested: real, profit: real): (r: Option<real>)
    ensures r.None? <==> invested == 0.0
    ensures r.Some? ==> r.value * invested == profit
  {
    if invested != 0.0 then Some(profit / invested) else None
  }

  datatype Figures = Figures(invested: real, received: real, profit: real, ratio: Option<real>)

  /**
    The aggregate figures of lines 67-70. Both totals are non-negative, the
    profit is the sum of the vector, and the ratio is missing exactly when the
    vector has no outflow at all.
  */
  function ComputeTotals(xs: seq<real>): (t: Figures)
    ensures t.invested >= 0.0 && t.received >= 0.0
    ensures t.invested == 0.0 <==> forall i :: 0 <= i < |xs| ==> xs[i] >= 0.0
    ensures t.received == 0.0 <==> forall i :: 0 <= i < |xs| ==> xs[i] <= 0.0
    ensures t.profit == t.received - t.invested == Sum(xs)
    ensures t.ratio == ReturnRatio(t.invested, t.profit)
    ensures t.ratio.None? <==> forall i :: 0 <= i < |xs| ==> xs[i] >= 0.0
  {
    var invested := Sum(Outflows(xs));
    var received := Sum(Inflows(xs));
    InvestedZero(xs);
    ReceivedZero(xs);
    NetIsSum(xs);
    var profit := received - invested;
    Figures(invested, received, profit, ReturnRatio(invested, profit))
  }
}
