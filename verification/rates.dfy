/**
  The fixed rate table: USD per hour for worker labor, office labor and each
  machine, and the closed set of cost categories built from it.
 */
module Rates {
  import opened Dicts

  const LaborWorker: string := "Labor - Worker"
  const LaborOffice: string := "Labor - Office"
  const Material: string := "Material"

  /** The categories every breakdown starts with, in the order of the dict literal. */
  const FixedCategories: seq<string> := [LaborWorker, LaborOffice, Material]

  /** Labor rates and the machine-name-to-rate dict (in its declaration order). */
  datatype RateTable = RateTable(worker: real, office: real, machine: Dict) {

    /** The machine dict is a proper dict and no machine is named like a fixed category. */
    ghost predicate WellFormed() {
      && machine.Valid()
      && forall c :: c in FixedCategories ==> c !in machine.vals
    }

    ghost predicate NonNegative() {
      && worker >= 0.0
      && office >= 0.0
      && forall m :: m in machine.vals ==> machine.vals[m] >= 0.0
    }
  }

  const LaborCostWorker: real := 10.0
  const LaborCostOffice: real := 10.0
  const MachineCost: Dict :=
    Dict(["CNC", "Robot", "Autoclave"], map["CNC" := 10.0, "Robot" := 10.0, "Autoclave" := 10.0])

  /** The table the budget monitor is configured with. */
  const Table: RateTable := RateTable(LaborCostWorker, LaborCostOffice, MachineCost)

  /** Every category of a breakdown, in insertion order: the fixed ones, then the machines. */
  function Categories(rates: RateTable): seq<string> {
    FixedCategories + rates.machine.keys
  }

  /** A category the rate table knows about. */
  ghost predicate IsCategory(rates: RateTable, c: string) {
    c in FixedCategories || c in rates.machine.vals
  }

  /** The hourly rate of a labor or machine category. */
  function RateFor(rates: RateTable, c: string): real
    requires c == LaborWorker || c == LaborOffice || c in rates.machine.vals
  {
    if c == LaborWorker then rates.worker
    else if c == LaborOffice then rates.office
    else rates.machine.vals[c]
  }

  /** The configured table is well formed, non-negative, and yields six categories. */
  lemma TableWellFormed()
    ensures Table.WellFormed() && Table.NonNegative()
    ensures Categories(Table) == ["Labor - Worker", "Labor - Office", "Material", "CNC", "Robot", "Autoclave"]
    ensures forall c :: IsCategory(Table, c) && c != Material ==> RateFor(Table, c) == 10.0
  {
  }

  /** In a well-formed table the category order has no repeats and lists exactly the known categories. */
  lemma CategoriesDistinct(rates: RateTable)
    requires rates.WellFormed()
    ensures forall i, j :: 0 <= i < j < |Categories(rates)| ==> Categories(rates)[i] != Categories(rates)[j]
    ensures forall c :: c in Categories(rates) <==> IsCategory(rates, c)
  {
    var cs := Categories(rates);
    forall i, j | 0 <= i < j < |cs| ensures cs[i] != cs[j] {
      if j >= 3 && i < 3 {
        assert cs[j] == rates.machine.keys[j - 3];
        assert cs[j] in rates.machine.vals;
      } else if i >= 3 {
        assert cs[i] == rates.machine.keys[i - 3] && cs[j] == rates.machine.keys[j - 3];
      }
    }
  }
}
