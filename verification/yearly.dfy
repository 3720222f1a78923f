/**
  Grouping of the cash-flow vector into years for the chart (main.py,
  `index()`, lines 73-78): consecutive 12-month chunks from month 0, the
  last one possibly shorter, each labelled with its year number and summed.
*/
module Yearly {
  import opened Sums
  import opened Labels

  /** Number of chunks `range(0, n, 12)` produces: n / 12 rounded up. */
  function YearCount(n: nat): (c: nat)
    ensures 12 * c >= n && 12 * c < n + 12
  {
    (n + 11) / 12
  }

  function Min(a: int, b: int): int
  {
    if a < b then a else b
  }

  /** `xs[12*k : 12*k + 12]`: the months of year k + 1, with Python's clamping at the end. */
  function Chunk(xs: seq<real>, k: nat): (c: seq<real>)
    requires k < YearCount(|xs|)
    ensures 1 <= |c| <= 12
    ensures 12 * k + |c| <= |xs|
    ensures |c| == 12 || 12 * k + |c| == |xs|
    ensures forall j :: 0 <= j < |c| ==> c[j] == xs[12 * k + j]
  {
    xs[12 * k .. Min(12 * k + 12, |xs|)]
  }

  /** The unrounded yearly totals, one per chunk, in order. */
  function ChunkSums(xs: seq<real>): (sums: seq<real>)
    ensures |sums| == YearCount(|xs|)
  {
    seq(YearCount(|xs|), k requires 0 <= k < YearCount(|xs|) => Sum(Chunk(xs, k)))
  }

  /** Past the first year, the chunks of a vector are the chunks of its tail after month 12. */
  lemma ChunkSumsStep(xs: seq<real>)
    requires |xs| > 12
    ensures ChunkSums(xs) == [Sum(xs[..12])] + ChunkSums(xs[12..])
  {
    var rest := xs[12..];
    assert YearCount(|xs|) == YearCount(|rest|) + 1;
    forall k | 0 <= k < YearCount(|rest|)
      ensures Chunk(xs, k + 1) == Chunk(rest, k)
    {
    }
  }

  /** The yearly totals add up to the total of the whole vector: the chunks partition it. */
  lemma {:induction false} ChunkSumsTotal(xs: seq<real>)
    ensures Sum(ChunkSums(xs)) == Sum(xs)
    decreases |xs|
  {
    if |xs| == 0 {
    } else if |xs| <= 12 {
      assert Chunk(xs, 0) == xs;
      assert ChunkSums(xs) == [Sum(xs)];
    } else {
      ChunkSumsStep(xs);
      ChunkSumsTotal(xs[12..]);
      SumAppend([Sum(xs[..12])], ChunkSums(xs[12..]));
      assert xs == xs[..12] + xs[12..];
      SumAppend(xs[..12], xs[12..]);
    }
  }

  /**
    The loop of lines 73-78: for each `start` in `range(0, len, 12)` append the
    label `Ano start//12 + 1` and the chunk total. Labels run "Ano 1", "Ano 2",
    ... in order, one per chunk, each total summing its chunk.
  */
  method GroupByYear(xs: seq<real>) returns (labels: seq<string>, values: seq<real>)
    ensures |labels| == |values| == YearCount(|xs|)
    ensures forall k :: 0 <= k < |labels| ==> labels[k] == YearLabel(k + 1)
    ensures values == ChunkSums(xs)
  {
    labels, values := [], [];
    var start := 0;
    while start < |xs|
      invariant start == 12 * |values| && |labels| == |values|
      invariant |values| <= YearCount(|xs|)
      invariant forall k :: 0 <= k < |labels| ==> labels[k] == YearLabel(k + 1)
      invariant forall k :: 0 <= k < |values| ==> values[k] == Sum(Chunk(xs, k))
      decreases |xs| - start
    {
      var year := start / 12 + 1;
      labels := labels + [YearLabel(year)];
      values := values + [Sum(xs[start .. Min(start + 12, |xs|)])];
      start := start + 12;
    }
  }
}
