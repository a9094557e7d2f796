/**
  The budget monitor's calculations: the estimated and actual cost breakdowns,
  their totals, the per-category variance rows and the final comparison.
 */
module Budget {
  import opened Dicts
  import opened Rates

  /** The quantities entered for one scenario (estimated or actual). */
  datatype CostInput = CostInput(
    laborWorker: real,               // worker labor hours
    laborOffice: real,               // office labor hours
    machineHours: map<string, real>, // hours per machine name
    material: real                   // material cost in USD, not hours
  ) {
    ghost predicate NonNegative() {
      && laborWorker >= 0.0
      && laborOffice >= 0.0
      && material >= 0.0
      && forall m :: m in machineHours ==> machineHours[m] >= 0.0
    }
  }

  /** The machine-hours dict has an entry for every machine of the rate table. */
  ghost predicate HasAllMachines(rates: RateTable, input: CostInput) {
    forall m :: m in rates.machine.vals ==> m in input.machineHours
  }

  /** The hours entered for a labor or machine category. */
  function Hours(input: CostInput, c: string): real
    requires c == LaborWorker || c == LaborOffice || c in input.machineHours
  {
    if c == LaborWorker then input.laborWorker
    else if c == LaborOffice then input.laborOffice
    else input.machineHours[c]
  }

  /** Hours times an hourly rate, in USD. */
  function Charge(hours: real, rate: real): (usd: real)
    ensures hours >= 0.0 && rate >= 0.0 ==> usd >= 0.0
  {
    hours * rate
  }

  /**
    What one category costs: hours times the category's rate, except that
    material is entered in USD and passes through unchanged.
   */
  function CategoryCost(rates: RateTable, input: CostInput, c: string): real
    requires IsCategory(rates, c) && HasAllMachines(rates, input)
  {
    if c == Material then input.material else Charge(Hours(input, c), RateFor(rates, c))
  }

  /** With non-negative hours and rates every category cost is non-negative. */
  lemma CategoryCostNonNegative(rates: RateTable, input: CostInput, c: string)
    requires IsCategory(rates, c) && HasAllMachines(rates, input)
    requires rates.NonNegative() && input.NonNegative()
    ensures CategoryCost(rates, input, c) >= 0.0
  {
  }

  /** `cost` holds the fixed categories and the first `n` machines, each at its category cost. */
  ghost predicate PartialBreakdown(rates: RateTable, input: CostInput, cost: Dict, n: nat)
    requires rates.WellFormed() && HasAllMachines(rates, input)
  {
    && n <= |rates.machine.keys|
    && cost.Valid()
    && cost.keys == FixedCategories + rates.machine.keys[..n]
    && forall c :: c in cost.vals ==> IsCategory(rates, c) && cost.vals[c] == CategoryCost(rates, input, c)
  }

  /** The dict literal with the labor entries and material is a partial breakdown with no machines. */
  lemma BreakdownStart(rates: RateTable, input: CostInput, cost: Dict)
    requires rates.WellFormed() && HasAllMachines(rates, input)
    requires cost == Dict(FixedCategories, map[
      LaborWorker := Charge(input.laborWorker, rates.worker),
      LaborOffice := Charge(input.laborOffice, rates.office),
      Material := input.material])
    ensures PartialBreakdown(rates, input, cost, 0)
  {
  }

  /** Adding the next machine's entry extends a partial breakdown by one machine. */
  lemma BreakdownStep(rates: RateTable, input: CostInput, cost: Dict, n: nat)
    requires rates.WellFormed() && HasAllMachines(rates, input)
    requires PartialBreakdown(rates, input, cost, n) && n < |rates.machine.keys|
    ensures var m := rates.machine.keys[n];
      && m in rates.machine.vals
      && m in input.machineHours
      && PartialBreakdown(rates, input, cost.Put(m, Charge(input.machineHours[m], rates.machine.vals[m])), n + 1)
  {
  }

  /** A partial breakdown that covers every machine holds exactly the categories of the rate table. */
  lemma BreakdownDone(rates: RateTable, input: CostInput, cost: Dict)
    requires rates.WellFormed() && HasAllMachines(rates, input)
    requires PartialBreakdown(rates, input, cost, |rates.machine.keys|)
    ensures cost.keys == Categories(rates)
    ensures cost.vals.Keys == {LaborWorker, LaborOffice, Material} + rates.machine.vals.Keys
  {
  }

  /**
    Builds one scenario's cost dict: the literal with the two labor entries and
    material, then one entry per machine in rate-table order.
   */
  method BuildBreakdown(rates: RateTable, input: CostInput) returns (cost: Dict)
    requires rates.WellFormed() && HasAllMachines(rates, input)
    ensures cost.Valid()
    ensures cost.keys == Categories(rates)
    ensures cost.vals.Keys == {LaborWorker, LaborOffice, Material} + rates.machine.vals.Keys
    ensures forall c :: c in cost.vals ==> IsCategory(rates, c) && cost.vals[c] == CategoryCost(rates, input, c)
  {
    cost := Dict(FixedCategories, map[
      LaborWorker := Charge(input.laborWorker, rates.worker),
      LaborOffice := Charge(input.laborOffice, rates.office),
      Material := input.material]);
    BreakdownStart(rates, input, cost);
    var machines := rates.machine.keys;
    for i := 0 to |machines|
      invariant PartialBreakdown(rates, input, cost, i)
    {
      BreakdownStep(rates, input, cost, i);
      var m := machines[i];
      cost := cost.Put(m, Charge(input.machineHours[m], rates.machine.vals[m]));
    }
    BreakdownDone(rates, input, cost);
  }

  /** Python's `act_total + warranty_cost + afterwork_cost`. */
  function WithExtras(total: real, warranty: real, afterwork: real): (r: real)
    ensures warranty >= 0.0 && afterwork >= 0.0 ==> r >= total
  {
    total + warranty + afterwork
  }

  /**
    Percentage of `part` relative to `base`; a zero base yields 0 by policy
    instead of dividing by zero.
   */
  function Percent(part: real, base: real): (r: real)
    ensures base == 0.0 ==> r == 0.0
    ensures base != 0.0 ==> r * base == part * 100.0
    ensures base > 0.0 ==> (r > 0.0 <==> part > 0.0) && (r < 0.0 <==> part < 0.0)
  {
    if base != 0.0 then part / base * 100.0 else 0.0
  }

  /** One line of the summary table. */
  datatype Row = Row(category: string, estimated: real, actual: real, difference: real, percent: real)

  /**
    The summary table: one row per estimated category, in the estimated dict's
    order, with actual defaulting to 0 for a category the actual dict lacks.
   */
  method VarianceRows(est: Dict, act: Dict) returns (rows: seq<Row>)
    requires est.Valid()
    ensures |rows| == |est.keys|
    ensures forall i :: 0 <= i < |rows| ==>
      && rows[i].category == est.keys[i]
      && rows[i].estimated == est.vals[est.keys[i]]
      && rows[i].actual == (if est.keys[i] in act.vals then act.vals[est.keys[i]] else 0.0)
      && rows[i].difference == rows[i].estimated - rows[i].actual
      && rows[i].percent == Percent(rows[i].difference, rows[i].estimated)
  {
    rows := [];
    for i := 0 to |est.keys|
      invariant |rows| == i
      invariant forall j :: 0 <= j < i ==>
        && rows[j].category == est.keys[j]
        && rows[j].estimated == est.vals[est.keys[j]]
        && rows[j].actual == (if est.keys[j] in act.vals then act.vals[est.keys[j]] else 0.0)
        && rows[j].difference == rows[j].estimated - rows[j].actual
        && rows[j].percent == Percent(rows[j].difference, rows[j].estimated)
    {
      var category := est.keys[i];
      var estimated := est.vals[category];
      var actual := act.Get(category, 0.0);
      var diff := estimated - actual;
      var percentDiff := Percent(diff, estimated);
      rows := rows + [Row(category, estimated, actual, diff, percentDiff)];
    }
  }

  /** The "Difference (USD)" column. */
  function Differences(rows: seq<Row>): seq<real> {
    seq(|rows|, i requires 0 <= i < |rows| => rows[i].difference)
  }

  /**
    When both dicts list the same categories in the same order, the row
    differences add up to the estimated total minus the actual total.
   */
  lemma DifferencesSumToTotalGap(est: Dict, act: Dict, rows: seq<Row>)
    requires est.Valid() && act.Valid() && est.keys == act.keys
    requires |rows| == |est.keys|
    requires forall i :: 0 <= i < |rows| ==>
      rows[i].difference == est.vals[est.keys[i]] - act.vals[est.keys[i]]
    ensures Sum(Differences(rows)) == est.Total() - act.Total()
  {
    SumOfDifferences(est.Values(), act.Values(), Differences(rows));
  }

  /** The "Final Comparison" table, item by item. */
  datatype FinalSummary = FinalSummary(
    estimatedTotal: real,
    actualTotal: real,      // without warranty and afterwork
    warranty: real,
    afterwork: real,
    actualTotalAll: real,   // warranty and afterwork included
    gap: real,
    gapPercent: real
  )

  /**
    The final comparison: the gap is how far the all-in actual cost overruns
    the estimate, and its percentage is relative to the estimated total.
   */
  function Summarize(estTotal: real, actTotal: real, warranty: real, afterwork: real): (s: FinalSummary)
    ensures s.estimatedTotal == estTotal && s.actualTotal == actTotal
    ensures s.warranty == warranty && s.afterwork == afterwork
    ensures s.actualTotalAll == WithExtras(actTotal, warranty, afterwork)
    ensures estTotal == 0.0 ==> s.gapPercent == 0.0
    ensures estTotal != 0.0 ==> s.gapPercent * estTotal == s.gap * 100.0
  {
    var all := WithExtras(actTotal, warranty, afterwork);
    var gap := all - estTotal;
    FinalSummary(estTotal, actTotal, warranty, afterwork, all, gap, Percent(gap, estTotal))
  }

  /** Everything the calculation section produces from one input snapshot. */
  datatype Report = Report(estCost: Dict, actCost: Dict, rows: seq<Row>, summary: FinalSummary)

  /**
    One evaluation of the script's calculations: both breakdowns and totals,
    the summary table and the final comparison.
   */
  method Evaluate(rates: RateTable, est: CostInput, act: CostInput, warranty: real, afterwork: real)
    returns (report: Report)
    requires rates.WellFormed()
    requires HasAllMachines(rates, est) && HasAllMachines(rates, act)
    ensures report.estCost.Valid() && report.actCost.Valid()
    ensures report.estCost.keys == report.actCost.keys == Categories(rates)
    ensures forall c :: c in report.estCost.vals ==>
      && IsCategory(rates, c)
      && report.estCost.vals[c] == CategoryCost(rates, est, c)
      && report.actCost.vals[c] == CategoryCost(rates, act, c)
    ensures report.summary == Summarize(report.estCost.Total(), report.actCost.Total(), warranty, afterwork)
    ensures |report.rows| == |Categories(rates)|
    ensures forall i :: 0 <= i < |report.rows| ==>
      var c := Categories(rates)[i];
      && report.rows[i].category == c
      && report.rows[i].estimated == CategoryCost(rates, est, c)
      && report.rows[i].actual == CategoryCost(rates, act, c)
      && report.rows[i].difference == report.rows[i].estimated - report.rows[i].actual
      && report.rows[i].percent == Percent(report.rows[i].difference, report.rows[i].estimated)
    ensures Sum(Differences(report.rows)) == report.summary.estimatedTotal - report.summary.actualTotal
    ensures report.summary.gap == warranty + afterwork - Sum(Differences(report.rows))
    ensures rates.NonNegative() && act.NonNegative() ==> report.summary.actualTotal >= 0.0
    ensures rates.NonNegative() && est.NonNegative() ==> report.summary.estimatedTotal >= 0.0
    ensures warranty >= 0.0 && afterwork >= 0.0 ==> report.summary.actualTotalAll >= report.summary.actualTotal
  {
    var estCost := BuildBreakdown(rates, est);
    var estTotal := estCost.Total();
    var actCost := BuildBreakdown(rates, act);
    var actTotal := actCost.Total();
    var rows := VarianceRows(estCost, actCost);
    DifferencesSumToTotalGap(estCost, actCost, rows);
    if rates.NonNegative() && act.NonNegative() {
      forall c | c in actCost.vals ensures actCost.vals[c] >= 0.0 {
        CategoryCostNonNegative(rates, act, c);
      }
      TotalNonNegative(actCost);
    }
    if rates.NonNegative() && est.NonNegative() {
      forall c | c in estCost.vals ensures estCost.vals[c] >= 0.0 {
        CategoryCostNonNegative(rates, est, c);
      }
      TotalNonNegative(estCost);
    }
    report := Report(estCost, actCost, rows, Summarize(estTotal, actTotal, warranty, afterwork));
  }
}
