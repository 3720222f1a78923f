/**
  The computation of one form submission (main.py, `index()`, lines 37-87),
  with the parsed fields as input and the monthly rate solver as a parameter:
  build the cash-flow vector, ask the solver for the monthly rate, annualise
  it, total the vector and group it by year.
*/
module Calculator {
  import opened Wrappers
  import opened Sums
  import opened CashFlow
  import opened Totals
  import opened Rates
  import opened Labels
  import opened Yearly

  /** The numbers behind the rendered result record, before any string formatting. */
  datatype Report = Report(
    invested: real,             // aporte_total
    received: real,             // retorno_total
    profit: real,               // lucro
    monthlyRate: Option<real>,  // tir_mensal
    annualRate: Option<real>,   // tir_anual
    ratio: Option<real>,        // rentabilidade
    labels: seq<string>,        // grafico.labels
    values: seq<real>,          // grafico.values, unrounded
    flows: seq<real>            // fluxo
  )

  /**
    One submission. `solver` stands for `safe_irr`: any function from a
    vector to an optional rate. The report's vector is the closed-form one,
    its yearly values add up to its profit, and the annual rate and the
    return ratio are each present exactly when their inputs allow.
  */
  method Evaluate(s: Scenario, solver: seq<real> -> Option<real>) returns (rep: Report)
    ensures rep.flows == CashFlows(s)
    ensures rep.flows[0] == -s.downPayment + (if s.saleMonth == 0 then s.saleValue else 0.0)
    ensures rep.monthlyRate == solver(rep.flows)
    ensures rep.annualRate == AnnualRate(rep.monthlyRate)
    ensures rep.annualRate.Some? <==> rep.monthlyRate.Some?
    ensures rep.invested == Sum(Outflows(rep.flows)) && rep.received == Sum(Inflows(rep.flows))
    ensures rep.invested >= 0.0 && rep.received >= 0.0
    ensures rep.invested == 0.0 <==> forall i :: 0 <= i < |rep.flows| ==> rep.flows[i] >= 0.0
    ensures rep.profit == rep.received - rep.invested == Sum(rep.flows)
    ensures rep.ratio.None? <==> rep.invested == 0.0
    ensures rep.ratio == ReturnRatio(rep.invested, rep.profit)
    ensures |rep.labels| == |rep.values| == YearCount(|rep.flows|)
    ensures forall k :: 0 <= k < |rep.labels| ==> rep.labels[k] == YearLabel(k + 1)
    ensures rep.values == ChunkSums(rep.flows)
    ensures Sum(rep.values) == rep.profit
  {
    var flows := BuildCashFlows(s);
    var monthly := solver(flows);
    var annual := AnnualRate(monthly);
    var totals := ComputeTotals(flows);
    var labels, values := GroupByYear(flows);
    ChunkSumsTotal(flows);
    rep := Report(totals.invested, totals.received, totals.profit,
                  monthly, annual, totals.ratio, labels, values, flows);
  }

  /** An all-zero submission: one month, nothing invested or received, no return ratio. */
  lemma AllZeroScenario()
    ensures CashFlows(Scenario(0.0, 0, 0.0, 0, 0.0, 0, 0.0)) == [0.0]
    ensures ComputeTotals([0.0]) == Figures(0.0, 0.0, 0.0, None)
  {
  }

  /**
    Down payment 10000, twelve monthly instalments of 500, sale at month 12
    for 20000: the month-12 instalment and the sale share one entry, so the
    vector is [-10000, -500 x 11, 19500] and the figures are invested 15500,
    received 19500, profit 4000.
  */
  lemma SampleScenario()
    ensures CashFlows(Scenario(10000.0, 12, 500.0, 0, 0.0, 12, 20000.0))
         == [-10000.0] + seq(11, _ => -500.0) + [19500.0]
    ensures ComputeTotals([-10000.0] + seq(11, _ => -500.0) + [19500.0])
         == Figures(15500.0, 19500.0, 4000.0, Some(4000.0 / 15500.0))
  {
    var s := Scenario(10000.0, 12, 500.0, 0, 0.0, 12, 20000.0);
    var expected := [-10000.0] + seq(11, _ => -500.0) + [19500.0];
    var flows := CashFlows(s);
    assert |flows| == 13;
    forall m | 0 <= m < 13
      ensures flows[m] == expected[m]
    {
      assert flows[m] == Entry(s, m);
    }
    assert flows == expected;
    OutflowsSample();
    InflowsSample();
  }

  lemma OutflowsSample()
    ensures Sum(Outflows([-10000.0] + seq(11, _ => -500.0) + [19500.0])) == 15500.0
  {
    var run := [-10000.0] + seq(11, _ => -500.0);
    OutflowsNegativeRun(run, [19500.0]);
    assert Outflows([19500.0]) == [];
    assert Negated(run) + [] == [10000.0] + seq(11, _ => 500.0);
    SumAppend([10000.0], seq(11, _ => 500.0));
    SumConstant(11, 500.0);
  }

  lemma InflowsSample()
    ensures Sum(Inflows([-10000.0] + seq(11, _ => -500.0) + [19500.0])) == 19500.0
  {
    var tail := seq(11, _ => -500.0);
    var xs := [-10000.0] + tail + [19500.0];
    assert xs[1..] == tail + [19500.0];
    InflowsNegativeRun(tail, [19500.0]);
    assert Inflows([19500.0]) == [19500.0];
  }
}
