# calculatorTIR cash-flow core in Dafny

calculatorTIR is a one-page Flask form. It computes the internal rate of
return (TIR, *taxa interna de retorno*) of a real-estate purchase paid with
a down payment (`entrada`), monthly and annual instalments (`parcelas`),
followed by a sale (`venda`). This project models the computation inside the
`index()` handler of `main.py`, taking the form fields as already parsed:

- **CashFlow** (`cash_flow.dfy`) builds the monthly signed cash-flow vector.
  It has `total_meses = max(mes_venda, parcelas_mensais, 12*parcelas_anuais) + 1`
  entries. Month 0 holds the negated down payment (plus the sale value when
  the sale month is 0). Months 1..n lose the monthly
  instalment, months 12, 24, ... lose the annual instalment, and the sale month
  gains the sale value. `Entry` gives each entry in closed form.
  `BuildCashFlows` mirrors the two guarded loops and the sale step, and is
  proved equal to that closed form.
- **Totals** (`totals.dfy`) computes total invested (`aporte_total`), total
  received (`retorno_total`), profit (`lucro`) and return ratio
  (`rentabilidade`).
- **Rates** (`rates.dfy`) annualises the monthly rate as `(1 + tir)^12 - 1`.
- **Labels** and **Yearly** (`labels.dfy`, `yearly.dfy`) cut the vector into
  12-month chunks labelled `Ano 1`, `Ano 2`, ... and sum each chunk.
- **Calculator** (`calculator.dfy`) chains these steps for one submission.
  The IRR solver `safe_irr` is passed in as an arbitrary function from a vector
  to an optional rate.
- **Sums** and **Wrappers** hold Python's `sum` and the `Option` type.

Amounts are `real` and counts are `nat`.

Two behaviours of the code worth noting:

- Entry 0 is not always the negated down payment. When the sale month is 0,
  the sale value is added to the same entry (`CashFlows`, `Evaluate`).
- The sample submission has down payment 10000, twelve instalments of 500, and
  a sale at month 12 for 20000. Counting each payment separately would give
  16000 invested and 20000 received, but the code stores the month-12 instalment
  and the sale in one entry (19500). So it reports 15500 invested, 19500
  received and a profit of 4000 (`SampleScenario`).

## Model

| member | source | states |
|---|---|---|
| CashFlow.TotalMonths | main.py:37 | the vector length is one more than the largest of sale month, monthly count and 12 × annual count, so the guards at lines 45, 51 and 55 always hold |
| CashFlow.CashFlows | main.py:37-56 | the vector has `TotalMonths` entries, each given by the closed form `Entry`; entry 0 is `-entrada`, plus `valor_venda` exactly when `mes_venda == 0` |
| CashFlow.BuildCashFlows | main.py:37-61 | the loop-built vector equals the closed form: every month 1..`parcelas_mensais` loses the monthly instalment exactly once, every month 12k with 1 ≤ k ≤ `parcelas_anuais` loses the annual instalment exactly once, month 0 is untouched by instalments, and the sale lands at `mes_venda` |
| CashFlow.PlaceSaleAsWritten | main.py:55-61 | the sale step as written, on any vector: inside the vector it adds the value at the sale month; past the end it pads with zeros and puts the value at index `mes_venda + 1` |
| CashFlow.PlaceSale | main.py:55-56 | the intended sale step: the value lands at index `mes_venda`, the vector grows to `mes_venda + 1` entries only if needed, and every other entry is unchanged or a zero pad |
| CashFlow.PlaceSaleAgrees | main.py:55-61 | when the sale month is inside the vector, the written sale step and the intended one give the same vector |
| CashFlow.PlaceSaleAsWrittenOffByOne | main.py:57-61 | counterexample: on [0.0] with sale month 1 the written branch gives [0.0, 0.0, 5.0], while the intended result is [0.0, 5.0] |
| CashFlow.SaleIsLastStep | main.py:54-56 | the sale month is always inside the vector of instalments, and the full vector is that vector with the sale value added at `mes_venda` alone |
| Totals.Outflows | main.py:67 | the outflow list has only strictly positive sizes, is no longer than the vector, and is empty exactly when no entry is negative |
| Totals.Inflows | main.py:68 | the inflow list has only strictly positive values, is no longer than the vector, and is empty exactly when no entry is positive |
| Totals.NetIsSum | main.py:67-69 | received minus invested equals the plain sum of the vector |
| Totals.InvestedZero | main.py:67-70 | total invested is non-negative, and it is zero exactly when no entry of the vector is negative |
| Totals.ReceivedZero | main.py:68 | total received is non-negative, and it is zero exactly when no entry of the vector is positive |
| Totals.ReturnRatio | main.py:70 | the ratio is absent exactly when the investment is zero; otherwise ratio × investment = profit |
| Totals.ComputeTotals | main.py:67-70 | both totals are ≥ 0, profit = received − invested = sum of the vector, and the ratio is absent exactly when the vector has no outflow |
| Rates.AnnualRate | main.py:65 | the annual rate is defined exactly when the monthly rate is |
| Rates.AnnualRateBounds | main.py:65 | for a monthly rate ≥ −1 the annual rate is ≥ −1 and ≥ 12 × the monthly rate, and has the same sign as the monthly rate |
| Labels.Decimal | main.py:77 | `str(k)` is a non-empty string of decimal digits with no leading zero |
| Labels.ParseDecimalRoundTrip | main.py:77 | reading the decimal rendering back gives the number |
| Labels.YearLabel | main.py:76-77 | a label is "Ano " followed by decimal digits |
| Labels.YearLabelInjective | main.py:76-77 | distinct years get distinct labels |
| Yearly.YearCount | main.py:75 | `range(0, n, 12)` yields n/12 rounded up starts: 12·c ≥ n > 12·c − 12 |
| Yearly.Chunk | main.py:78 | chunk k has 1 to 12 entries, is `xs[12k + j]` entry by entry, and is short only when it ends the vector |
| Yearly.ChunkSums | main.py:75-78 | there is one yearly total per chunk |
| Yearly.ChunkSumsTotal | main.py:73-78 | the unrounded yearly totals add up to the sum of the whole vector |
| Yearly.GroupByYear | main.py:73-78 | the loop yields ceil(len/12) labels "Ano 1".."Ano n" in order and one total per chunk, k-th total = sum of indices 12k..min(12k+12, len)−1 |
| Calculator.Evaluate | main.py:37-87 | one submission: the vector is the closed form; the monthly rate is the solver's answer on it and the annual rate is `(1 + m)^12 − 1` of it, present exactly when the monthly one is; invested is the sum of the negated outflows and received the sum of the inflows, both ≥ 0, invested zero exactly when no entry is negative; profit = received − invested = sum of the vector; the ratio is `ReturnRatio(invested, profit)`, absent exactly when nothing was invested; labels are "Ano 1".."Ano n" and the yearly values are the per-chunk sums, which add up to the profit |
| Calculator.AllZeroScenario | main.py:37-70 | an all-zero submission gives a one-entry vector [0.0], zero totals and profit, and no return ratio |
| Calculator.SampleScenario | main.py:37-70 | down payment 10000, 12 × 500 monthly, sale at month 12 for 20000: vector [−10000, −500 × 11, 19500], invested 15500, received 19500, profit 4000 |

## Left out

- HTTP routing, reading `request.form` and rendering the template (main.py:1-5, 16-24, 95-99): request plumbing with no logic.
- Converting the form strings with `float()`/`int()` and the `or 0` fallback (main.py:28-34): this depends on Python's number parsing. The model takes the parsed values.
- Negative counts or sale month: counts are `nat`. Python's negative indexing and the `IndexError` it can raise (caught at main.py:91-92) are not modelled.
- `safe_irr` and `npf.irr` (main.py:7-14) are a foreign floating-point root solver. `Evaluate` takes the solver as a function parameter and assumes nothing about it.
- Floating point: amounts are exact reals. Rounding of each float addition, the order of summation, NaN and infinities are not modelled.
- Evaluate: the chart values are the unrounded chunk sums; `round(..., 2)` (main.py:78) is floating-point display rounding and is not modelled.
- Rates.AnnualRate: computes `(1 + tir)^12 - 1` exactly over the reals, not as a float power.
- Currency and percentage formatting in the result record, and the "Não calculado"/"N/A" placeholders (main.py:81-86), are display only.
- The top-level `except Exception` error record (main.py:91-92) is not modelled. The model assumes the zero-filled vector of line 38 can be allocated and that the power `(1 + tir_mensal) ** 12` of line 65 does not overflow. In Python a huge count or sale month makes line 38 raise `OverflowError` or `MemoryError`, and an out-of-range float power on line 65 raises `OverflowError`. Either one replaces the whole result with the error record, while `BuildCashFlows` and `Evaluate` always return a report.

## Findings

| source | as written | input that shows it | evidently intended | confidence | as-written member | corrected member |
|---|---|---|---|---|---|---|
| main.py:57-61 | when `mes_venda >= total_meses`, pads with `mes_venda - (total_meses - 1)` zeros and then appends the sale value, so it lands at index `mes_venda + 1` | a vector [0.0] with sale month 1 and value 5 gives [0.0, 0.0, 5.0] | the value lands at index `mes_venda`: [0.0, 5.0] | high that the branch is off by one; not executed. From `index()` it is unreachable because `total_meses > mes_venda` (`TotalMonths`, `PlaceSaleAgrees`) | CashFlow.PlaceSaleAsWrittenOffByOne | CashFlow.PlaceSale |
