/**
  Construction of the monthly cash-flow vector of a purchase/sale scenario
  (main.py, `index()`, lines 37-61). Month 0 carries the down payment,
  months 1..n the monthly instalments, months 12, 24, ... the annual
  instalments, and the sale month the sale value. Outflows are negative,
  inflows positive.
*/
module CashFlow {

  /** The already-parsed form fields of one submission. */
  datatype Scenario = Scenario(
    downPayment: real,      // entrada
    monthlyCount: nat,      // parcelas_mensais
    monthlyAmount: real,    // valor_parcela_mensal
    annualCount: nat,       // parcelas_anuais
    annualAmount: real,     // valor_parcela_anual
    saleMonth: nat,         // mes_venda
    saleValue: real         // valor_venda
  )

  function Max(a: nat, b: nat): nat
  {
    if a < b then b else a
  }

  /**
    `total_meses`: one more than the latest month any cash flow is scheduled for.
    Every guard of the construction (`i < total_meses`, `mes < total_meses`,
    `mes_venda < total_meses`) is therefore true.
  */
  function TotalMonths(s: Scenario): (n: nat)
    ensures s.saleMonth < n && s.monthlyCount < n && 12 * s.annualCount < n
    ensures n - 1 == s.saleMonth || n - 1 == s.monthlyCount || n - 1 == 12 * s.annualCount
  {
    Max(Max(s.saleMonth, s.monthlyCount), s.annualCount * 12) + 1
  }

  /** Month `m` is the due date of one of the annual instalments 12, 24, ..., 12 * annualCount. */
  predicate IsAnnualMonth(s: Scenario, m: nat)
  {
    m > 0 && m % 12 == 0 && m / 12 <= s.annualCount
  }

  /** Closed form of entry `m` of the vector: every contribution scheduled for that month. */
  function Entry(s: Scenario, m: nat): real
  {
    (if m == 0 then -s.downPayment else 0.0)
    - (if 1 <= m <= s.monthlyCount then s.monthlyAmount else 0.0)
    - (if IsAnnualMonth(s, m) then s.annualAmount else 0.0)
    + (if m == s.saleMonth then s.saleValue else 0.0)
  }

  /** The cash-flow vector as a whole: `TotalMonths(s)` entries, each given by `Entry`. */
  function CashFlows(s: Scenario): (flows: seq<real>)
    ensures |flows| == TotalMonths(s)
    ensures forall m :: 0 <= m < |flows| ==> flows[m] == Entry(s, m)
    ensures flows[0] == -s.downPayment + (if s.saleMonth == 0 then s.saleValue else 0.0)
  {
    seq(TotalMonths(s), m requires 0 <= m => Entry(s, m))
  }

  /**
    The sale step of lines 55-61 exactly as written, for an arbitrary vector:
    when the sale month is past the end, the vector is padded with
    `month - (|flows| - 1)` zeros and the sale value is appended after them.
  */
  function PlaceSaleAsWritten(flows: seq<real>, month: nat, value: real): (r: seq<real>)
    ensures |r| == if month < |flows| then |flows| else month + 2
    ensures forall j :: 0 <= j < |flows| && j != month ==> r[j] == flows[j]
    ensures month < |flows| ==> r[month] == flows[month] + value
    ensures month >= |flows| ==> r[month + 1] == value
    ensures month >= |flows| ==> forall j :: |flows| <= j <= month ==> r[j] == 0.0
  {
    if month < |flows| then
      flows[month := flows[month] + value]
    else
      var extra := month - (|flows| - 1);
      flows + seq(extra, _ => 0.0) + [value]
  }

  /** The sale step as intended: the sale value lands at index `month`, padding with zeros first if needed. */
  function PlaceSale(flows: seq<real>, month: nat, value: real): (r: seq<real>)
    ensures |r| == Max(|flows|, month + 1)
    ensures forall j :: 0 <= j < |flows| && j != month ==> r[j] == flows[j]
    ensures forall j :: |flows| <= j < |r| && j != month ==> r[j] == 0.0
    ensures r[month] == (if month < |flows| then flows[month] else 0.0) + value
  {
    if month < |flows| then
      flows[month := flows[month] + value]
    else
      flows + seq(month - |flows|, _ => 0.0) + [value]
  }

  /** Inside the vector the written sale step and the intended one agree. */
  lemma PlaceSaleAgrees(flows: seq<real>, month: nat, value: real)
    requires month < |flows|
    ensures PlaceSaleAsWritten(flows, month, value) == PlaceSale(flows, month, value)
  {
  }

  /**
    Past the end of the vector the written sale step puts the value one index
    too late: for the one-entry vector [0.0] and sale month 1 it yields
    [0.0, 0.0, 5.0] instead of [0.0, 5.0].
  */
  lemma PlaceSaleAsWrittenOffByOne()
    ensures PlaceSaleAsWritten([0.0], 1, 5.0) == [0.0, 0.0, 5.0]
    ensures PlaceSale([0.0], 1, 5.0) == [0.0, 5.0]
    ensures PlaceSaleAsWritten([0.0], 1, 5.0)[1] != 5.0
  {
  }

  /**
    The sale is the last step and touches only the sale month: the vector is
    the one of the same scenario without a sale, with the sale value added at
    index `saleMonth`, which is always inside it.
  */
  lemma SaleIsLastStep(s: Scenario)
    ensures s.saleMonth < |CashFlows(s.(saleValue := 0.0))|
    ensures CashFlows(s) == PlaceSale(CashFlows(s.(saleValue := 0.0)), s.saleMonth, s.saleValue)
  {
  }

  /** Contribution of the monthly instalments numbered 1..k-1 to month m. */
  function MonthlyPaid(s: Scenario, m: nat, k: nat): real
  {
    if 1 <= m < k then s.monthlyAmount else 0.0
  }

  /** Contribution of the annual instalments numbered 1..k-1 to month m. */
  function AnnualPaid(s: Scenario, m: nat, k: nat): real
  {
    if m > 0 && m % 12 == 0 && m / 12 < k then s.annualAmount else 0.0
  }

  /**
    The construction loop of lines 37-61: allocate `total_meses` zeros, put the
    negated down payment at month 0, subtract each monthly instalment from
    months 1..parcelas_mensais and each annual instalment from months
    12, 24, ..., then add the sale value at the sale month. The result is the
    closed-form vector: each month receives each instalment due in it exactly
    once and the sale value exactly at `saleMonth`.
  */
  method BuildCashFlows(s: Scenario) returns (flows: seq<real>)
    ensures |flows| == TotalMonths(s)
    ensures forall m :: 0 <= m < |flows| ==> flows[m] == Entry(s, m)
  {
    var total := TotalMonths(s);
    flows := seq(total, _ => 0.0);
    flows := flows[0 := -s.downPayment];

    var i := 1;
    while i <= s.monthlyCount
      invariant 1 <= i <= s.monthlyCount + 1
      invariant |flows| == total
      invariant forall m :: 0 <= m < total ==>
        flows[m] == (if m == 0 then -s.downPayment else 0.0) - MonthlyPaid(s, m, i)
    {
      if i < total {
        flows := flows[i := flows[i] - s.monthlyAmount];
      }
      i := i + 1;
    }

    i := 1;
    while i <= s.annualCount
      invariant 1 <= i <= s.annualCount + 1
      invariant |flows| == total
      invariant forall m :: 0 <= m < total ==>
        flows[m] == (if m == 0 then -s.downPayment else 0.0)
                    - MonthlyPaid(s, m, s.monthlyCount + 1) - AnnualPaid(s, m, i)
    {
      var month := i * 12;
      if month < total {
        AnnualStep(s, month, i);
        flows := flows[month := flows[month] - s.annualAmount];
      }
      i := i + 1;
    }

    PlaceSaleAgrees(flows, s.saleMonth, s.saleValue);
    flows := PlaceSaleAsWritten(flows, s.saleMonth, s.saleValue);
  }

  /** Adding annual instalment number `i` changes only month `12 * i`. */
  lemma AnnualStep(s: Scenario, month: nat, i: nat)
    requires i >= 1 && month == i * 12
    ensures forall m: nat :: m != month ==> AnnualPaid(s, m, i + 1) == AnnualPaid(s, m, i)
    ensures AnnualPaid(s, month, i) == 0.0 && AnnualPaid(s, month, i + 1) == s.annualAmount
  {
  }
}
