/** The analysis pass of the dashboard script over an uploaded table: the
    header is trimmed in place, then each metric is computed when its
    column is present, in the order the script runs them. */
module Dashboard {
  import opened Wrappers
  import opened Ranking
  import opened Metrics
  import opened Header

  const Vo2Column: string := "VO2(ml/min)"
  const CarbsColumn: string := "CARBS(%)"
  const FatColumn: string := "FAT(%)"
  const HrColumn: string := "HR(bpm)"
  const Vco2Column: string := "VCO2(ml/min)"

  /** Estimated VO2 max per kilogram and its label. `perKg` is `None` when
      the VO2 column holds no number: pandas then yields NaN, and NaN fails
      every comparison of the ranking rule, which falls back to Very Poor. */
  datatype Vo2Result = Vo2Result(perKg: Option<real>, rank: Rank)

  /** The mean carbohydrate and fat shares (NaN when a column is all missing). */
  datatype Substrate = Substrate(carbs: Option<real>, fat: Option<real>)

  /** What the script shows; `None` for a section that did not run. */
  datatype Report = Report(
    vo2: Option<Vo2Result>,
    substrate: Option<Substrate>,
    hrRecovery: Option<Recovery>,
    vco2Recovery: Option<Recovery>)

  /** Lines 48-50: peak VO2 over the present cells, divided by the weight,
      then ranked. */
  method EstimateVo2Max(cells: seq<Cell>, age: int, weight: real, g: Gender) returns (result: Vo2Result)
    requires 10 <= age <= 100 && 30.0 <= weight <= 200.0
    ensures var vo2 := Present(cells);
      (result.perKg.Some? <==> |vo2| > 0) &&
      (result.perKg.Some? ==>
        result.perKg.value == PerKg(Peak(vo2).value, weight) &&
        result.rank == Classify(result.perKg.value, g)) &&
      (result.perKg.None? ==> result.rank == VeryPoor)
  {
    var peak := Peak(Present(cells));
    if peak.None? {
      result := Vo2Result(None, VeryPoor);
    } else {
      var perKg := PerKg(peak.value, weight);
      var rank := RankVo2Max(perKg, age, g);
      result := Vo2Result(Some(perKg), rank);
    }
  }

  /** The position of the first column called `name` (Python's `in` on
      the column index, then selection by label). */
  function IndexOf(names: seq<string>, name: string): (r: Option<nat>)
    ensures r.None? <==> name !in names
    ensures r.Some? ==> r.value < |names| && names[r.value] == name
    ensures r.Some? ==> forall j :: 0 <= j < r.value ==> names[j] != name
  {
    if |names| == 0 then None
    else if names[0] == name then Some(0)
    else match IndexOf(names[1..], name)
      case None => None
      case Some(k) => Some(k + 1)
  }

  /** The uploaded table: one name and one column of cells per column, all
      columns `rows` long. */
  class Frame {
    var names: seq<string>
    var columns: seq<seq<Cell>>
    var rows: nat

    ghost predicate Valid()
      reads this
    {
      |names| == |columns| &&
      forall i :: 0 <= i < |columns| ==> |columns[i]| == rows
    }

    constructor (names: seq<string>, columns: seq<seq<Cell>>, rows: nat)
      requires |names| == |columns|
      requires forall i :: 0 <= i < |columns| ==> |columns[i]| == rows
      ensures Valid()
      ensures this.names == names && this.columns == columns && this.rows == rows
    {
      this.names, this.columns, this.rows := names, columns, rows;
    }

    /** The cells of the column called `name`, if the header has one. */
    function Column(name: string): (c: Option<seq<Cell>>)
      reads this
      requires Valid()
      ensures c.Some? <==> name in names
      ensures c.Some? ==> |c.value| == rows
      ensures c.Some? ==> exists i :: 0 <= i < |names| && names[i] == name && c.value == columns[i]
      ensures c.Some? ==> c.value == columns[IndexOf(names, name).value]
    {
      match IndexOf(names, name)
      case None => None
      case Some(i) => Some(columns[i])
    }

    /** `df.columns = df.columns.str.strip()`: every name is trimmed, the
        number and order of the columns and their cells stay as they were. */
    method StripColumnNames()
      requires Valid()
      modifies this
      ensures Valid()
      ensures names == StripAll(old(names))
      ensures columns == old(columns) && rows == old(rows)
    {
      names := StripAll(names);
    }

    /** What the metric sections of the script yield for this table: each
        section runs exactly when its columns are in the header. A recovery
        delta on fewer than ten rows raises IndexError, which ends the
        script, so the VCO2 delta is then never computed. */
    ghost predicate Reports(report: Report, weight: real, g: Gender)
      reads this
      requires Valid() && 30.0 <= weight <= 200.0
    {
      (report.vo2.Some? <==> Vo2Column in names) &&
      (report.vo2.Some? ==>
        var vo2 := Present(Column(Vo2Column).value);
        var result := report.vo2.value;
        (result.perKg.Some? <==> |vo2| > 0) &&
        (result.perKg.Some? ==>
          result.perKg.value == PerKg(Peak(vo2).value, weight) &&
          result.rank == Classify(result.perKg.value, g)) &&
        (result.perKg.None? ==> result.rank == VeryPoor)) &&
      (report.substrate.Some? <==> CarbsColumn in names && FatColumn in names) &&
      (report.substrate.Some? ==>
        report.substrate.value.carbs == Mean(Present(Column(CarbsColumn).value)) &&
        report.substrate.value.fat == Mean(Present(Column(FatColumn).value))) &&
      (report.hrRecovery.Some? <==> HrColumn in names) &&
      (report.hrRecovery.Some? ==>
        report.hrRecovery.value == RecoveryDelta(Column(HrColumn).value) &&
        (report.hrRecovery.value.TooFewRows? <==> rows < 10)) &&
      (report.vco2Recovery.Some? <==>
        Vco2Column in names && !(HrColumn in names && rows < 10)) &&
      (report.vco2Recovery.Some? ==>
        report.vco2Recovery.value == RecoveryDelta(Column(Vco2Column).value) &&
        (report.vco2Recovery.value.TooFewRows? <==> rows < 10))
    }

    /** The metric sections of the script (lines 47-83), run in order. */
    method Analyse(age: int, weight: real, g: Gender) returns (report: Report)
      requires Valid()
      requires 10 <= age <= 100 && 30.0 <= weight <= 200.0
      ensures Reports(report, weight, g)
    {
      var vo2: Option<Vo2Result> := None;
      var vo2Cells := Column(Vo2Column);
      if vo2Cells.Some? {
        var result := EstimateVo2Max(vo2Cells.value, age, weight, g);
        vo2 := Some(result);
      }

      var substrate: Option<Substrate> := None;
      var carbs, fat := Column(CarbsColumn), Column(FatColumn);
      if carbs.Some? && fat.Some? {
        substrate := Some(Substrate(Mean(Present(carbs.value)), Mean(Present(fat.value))));
      }

      var hr: Option<Recovery> := None;
      var hrCells := Column(HrColumn);
      if hrCells.Some? {
        hr := Some(RecoveryDelta(hrCells.value));
        if hr.value.TooFewRows? {
          return Report(vo2, substrate, hr, None);
        }
      }

      var vco2: Option<Recovery> := None;
      var vco2Cells := Column(Vco2Column);
      if vco2Cells.Some? {
        vco2 := Some(RecoveryDelta(vco2Cells.value));
      }
      report := Report(vo2, substrate, hr, vco2);
    }

    /** The script after the upload: the header is trimmed in place (line
        27), then the metric sections run over the trimmed names, so a
        column is found whatever whitespace surrounded its name in the file. */
    method Run(age: int, weight: real, g: Gender) returns (report: Report)
      requires Valid()
      requires 10 <= age <= 100 && 30.0 <= weight <= 200.0
      modifies this
      ensures Valid()
      ensures names == StripAll(old(names)) && columns == old(columns) && rows == old(rows)
      ensures Reports(report, weight, g)
    {
      StripColumnNames();
      report := Analyse(age, weight, g);
    }
  }
}
