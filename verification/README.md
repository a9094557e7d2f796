# Project Budget Monitor: cost aggregation and variance model

The budget monitor is a Streamlit form. A user enters hours and costs for an
estimated and an actual scenario. The script then turns those figures into
per-category cost breakdowns, totals, a per-category summary table of
differences, and a final comparison with a gap and a gap percentage. This
project models those calculations in Dafny and proves properties about them.

- `dicts.dfy` (module `Dicts`) models the Python `dict` as the script uses it.
  `Dict(keys, vals)` holds the insertion order and the mapping, with `Put`
  for `d[k] = v`, `Get` for `d.get(k, default)`, `Values` for `d.values()`,
  `Sum` for `sum(...)` (a left fold from 0) and `Total` for `sum(d.values())`.
  The script builds each cost dict in place. No other name refers to the
  dict while it is built, and nothing changes it afterwards (the charts only
  read it). The model therefore reassigns a dict value in a loop.
- `rates.dfy` (module `Rates`) holds the rate table: `LABOR_COST_WORKER`,
  `LABOR_COST_OFFICE` and the `MACHINE_COST` dict (`CNC`, `Robot`,
  `Autoclave`, all 10 USD/hour). It also holds the category names. The
  aggregation takes the table as a `RateTable` parameter. `Rates.Table` is
  the configured instance. `WellFormed` asks that no machine is named like a
  fixed category, and `TableWellFormed` proves this for the configured table.
- `budget.dfy` (module `Budget`) holds the calculations:
  - `BuildBreakdown` is the dict literal followed by the per-machine loop.
    The script runs this code once for the estimate and once for the actual.
  - `WithExtras` computes `act_total_with_extra`.
  - `Percent` is the percentage with the zero-denominator policy.
  - `VarianceRows` is the summary-table loop.
  - `Summarize` builds the "Final Comparison" values.
  - `Evaluate` chains all of these the way the script's calculation section does.

Money, hours and rates are Dafny `real`s. Each category's cost is checked
against an independent reference, `CategoryCost`. That reference is hours
times `RateFor(category)`, except for material, which passes through.

The summary-table loop iterates only the keys of the estimated cost dict
(app.py:87). A category present only in the actual dict gets no row.
`actual` falls back to 0 for a category missing from the actual dict. Both
dicts come from `BuildBreakdown` with the same table, so that never happens,
and `Evaluate` proves it.

The configured rates are all 10 USD/hour (app.py:18-24). The proofs hold for
any well-formed table.

## Model

| member | source | states |
|---|---|---|
| `Rates.TableWellFormed` | app.py:18-24 | The configured rate table has non-negative rates and no machine named like a fixed category. Its category order is Labor - Worker, Labor - Office, Material, CNC, Robot, Autoclave. Every labor and machine rate is 10. |
| `Rates.CategoriesDistinct` | app.py:65-71 | In a well-formed table, the category order has no repeated name and lists exactly the fixed categories plus the machines. |
| `Dicts.Dict.Put` | app.py:70-71 | `d[k] = v` keeps the dict well formed and sets `k` to `v`. Every other key keeps its value, and existing keys keep their order. A new key goes last; an existing key stays in place. |
| `Dicts.PutNewKey` | app.py:70-72 | `d[k] = v` for a new key appends `v` to `d.values()` and raises `sum(d.values())` by `v`. |
| `Dicts.PutExistingKey` | app.py:70-72 | `d[k] = v` for a key already present replaces its value in place within `d.values()`, and the sum changes by the new value minus the old one. |
| `Dicts.SumUpdate` | app.py:72 | Replacing one element of a summed sequence changes `sum` by the new element minus the old one. |
| `Budget.Charge` | app.py:66-67 | Hours times a rate is non-negative when both factors are. |
| `Budget.BuildBreakdown` | app.py:65-71 | The breakdown is a valid dict. Its keys are exactly {Labor - Worker, Labor - Office, Material} plus the machine names. Its order is the three fixed categories, then the machines in rate-table order. Each entry equals the category's reference cost: hours times rate, or the material cost unchanged. |
| `Budget.CategoryCostNonNegative` | app.py:74-80 | With non-negative hours, material and rates, every category cost is non-negative. |
| `Dicts.SumNonNegative` | app.py:81 | A `sum` of non-negative values is non-negative. |
| `Dicts.TotalNonNegative` | app.py:81 | A dict whose values are all non-negative has a non-negative `sum(d.values())`. |
| `Budget.WithExtras` | app.py:82 | With non-negative warranty and afterwork costs, the all-in actual total is at least the actual total. |
| `Budget.Percent` | app.py:91 | The percentage is 0 whenever the base is 0, whatever the numerator. Otherwise the percentage times the base equals the numerator times 100. For a positive base the percentage has the numerator's sign. |
| `Budget.VarianceRows` | app.py:86-98 | There is one row per estimated category, in the estimated dict's order. Each row holds the estimated value and the actual value, with actual 0 when the actual dict lacks the category. The difference is estimated minus actual, and the percentage is the difference relative to the estimate (0 if the estimate is 0). |
| `Dicts.SumOfDifferences` | app.py:90 | Summing element-wise differences gives the difference of the sums. |
| `Budget.DifferencesSumToTotalGap` | app.py:72-90 | When both dicts list the same categories in the same order, the row differences add up to the estimated total minus the actual total. |
| `Budget.Summarize` | app.py:161-169 | The final comparison carries the estimated total, the actual total and both extras, plus the all-in actual total from `WithExtras`. The gap percentage is 0 for a zero estimated total, and otherwise is gap × 100 / estimated total. |
| `Budget.Evaluate` | app.py:65-169 | Both breakdowns have the same key order, the rate table's categories, and each entry is its reference cost. There is one row per category, and its actual value is the actual breakdown's entry, so the default of 0 is never used. The row differences sum to estimated total minus actual total. The gap equals warranty + afterwork minus that sum. Non-negative actual inputs give a non-negative actual total, and the same holds for the estimate. Non-negative extras make the all-in total at least the actual total. |

## Left out

- The Streamlit page, its inputs and its state (`st.*`), as presentation. The hour and cost figures are parameters of `Evaluate`.
- `parse_number_input` (app.py:33-39), because it is Python's `float()` parser behind a bare `except`. Its results enter the model as given numbers.
- The `min_value=0.0` constraints on the actual inputs (app.py:53-62) are not preconditions. The non-negativity results are stated conditionally instead, because the estimated inputs have no such constraint.
- IEEE floating point, because the model computes in exact reals. Sums and products are therefore exact.
- VarianceRows: the "Difference (%)" value is not rounded to 2 decimals as `round(percent_diff, 2)` does. Python's float rounding is not modelled.
- Summarize: the gap percentage is not rounded to 2 decimals as `round(..., 2)` at app.py:168 does, for the same reason.
- The currency and percent string formatting (`$#,##0.00`, `0.00%`), as presentation.
- The Plotly and matplotlib charts and the pie-chart `sum > 0` guards (app.py:102-147, 173-200, 250-282), as rendering.
- The Excel export through openpyxl and BytesIO, and the temporary image files, as I/O.
- The project name and dates, which are passed through without any computation.
- The machine-hours dict is assumed to have an entry for every machine (`HasAllMachines`), because the script builds it from the `MACHINE_COST` keys (app.py:47-49, 55-57). A missing key would raise `KeyError` in Python, and that path is not modelled.
