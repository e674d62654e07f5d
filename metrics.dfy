/** The scalar metrics of the dashboard: peak VO2 and VO2 per kilogram,
    the substrate means and the recovery deltas. A column is a sequence of
    cells in row order; `None` is a missing cell (pandas' NaN). */
module Metrics {
  import opened Wrappers

  type Cell = Option<real>

  /** The values of the non-missing cells, in row order (what pandas'
      `max` and `mean` look at: both skip NaN). */
  function Present(col: seq<Cell>): (r: seq<real>)
    ensures |r| <= |col|
    ensures forall x :: x in r <==> Some(x) in col
    ensures forall x :: multiset(r)[x] == multiset(col)[Some(x)]
  {
    if |col| == 0 then []
    else
      var rest := Present(col[1..]);
      assert col == [col[0]] + col[1..];
      match col[0]
      case None => rest
      case Some(x) => [x] + rest
  }

  /** Series.max(): the largest value, or NaN (`None`) when nothing is present. */
  function Peak(values: seq<real>): (r: Option<real>)
    ensures r.None? <==> |values| == 0
    ensures r.Some? ==> r.value in values
    ensures r.Some? ==> forall i :: 0 <= i < |values| ==> values[i] <= r.value
  {
    if |values| == 0 then None
    else match Peak(values[1..])
      case None => Some(values[0])
      case Some(m) => Some(if values[0] < m then m else values[0])
  }

  /** The peak does not depend on the order of the rows. */
  lemma PeakOrderIndependent(a: seq<real>, b: seq<real>)
    requires multiset(a) == multiset(b)
    ensures Peak(a) == Peak(b)
  {
    if |a| != 0 {
      var ma, mb := Peak(a).value, Peak(b).value;
      assert ma in multiset(b);
      assert mb in multiset(a);
      var i :| 0 <= i < |b| && b[i] == ma;
      var j :| 0 <= j < |a| && a[j] == mb;
      assert ma <= mb && mb <= ma;
    } else {
      assert |b| == 0;
    }
  }

  /** `peak_vo2 / weight`, with the weight inside the bounds of its input
      widget (30 to 200 kg). */
  function PerKg(peak: real, weight: real): (r: real)
    requires 30.0 <= weight <= 200.0
    ensures r * weight == peak
    ensures 0.0 <= peak ==> 0.0 <= r <= peak / 30.0
  {
    peak / weight
  }

  function Sum(values: seq<real>): real
  {
    if |values| == 0 then 0.0 else values[0] + Sum(values[1..])
  }

  /** Series.mean(): the arithmetic mean, or NaN (`None`) when nothing is present. */
  function Mean(values: seq<real>): (r: Option<real>)
    ensures r.None? <==> |values| == 0
    ensures r.Some? ==> r.value * (|values| as real) == Sum(values)
  {
    if |values| == 0 then None else Some(Sum(values) / (|values| as real))
  }

  lemma {:induction false} SumAtMost(values: seq<real>, hi: real)
    requires forall i :: 0 <= i < |values| ==> values[i] <= hi
    ensures Sum(values) <= (|values| as real) * hi
  {
    if |values| != 0 {
      SumAtMost(values[1..], hi);
    }
  }

  lemma {:induction false} SumAtLeast(values: seq<real>, lo: real)
    requires forall i :: 0 <= i < |values| ==> lo <= values[i]
    ensures (|values| as real) * lo <= Sum(values)
  {
    if |values| != 0 {
      SumAtLeast(values[1..], lo);
    }
  }

  /** Dividing both sides of `a * n <= b * n` by a positive `n`. */
  lemma ScaleDown(a: real, b: real, n: real)
    requires 0.0 < n && a * n <= b * n
    ensures a <= b
  {
  }

  /** The mean lies within any bounds of the column, in particular between
      its minimum and its maximum. */
  lemma MeanWithinBounds(values: seq<real>, lo: real, hi: real)
    requires |values| > 0
    requires forall i :: 0 <= i < |values| ==> lo <= values[i] <= hi
    ensures lo <= Mean(values).value <= hi
  {
    SumAtLeast(values, lo);
    SumAtMost(values, hi);
    var n := |values| as real;
    var m := Mean(values).value;
    ScaleDown(lo, m, n);
    ScaleDown(m, hi, n);
  }

  /** The mean never exceeds the peak. */
  lemma MeanAtMostPeak(values: seq<real>)
    requires |values| > 0
    ensures Mean(values).value <= Peak(values).value
  {
    var p := Peak(values).value;
    var lo := Trough(values);
    MeanWithinBounds(values, lo, p);
  }

  /** The smallest value of a non-empty column. */
  function Trough(values: seq<real>): (r: real)
    requires |values| > 0
    ensures r in values
    ensures forall i :: 0 <= i < |values| ==> r <= values[i]
  {
    if |values| == 1 then values[0]
    else var m := Trough(values[1..]); if values[0] < m then values[0] else m
  }

  /** `Series.iloc[k]` for an integer position: negative positions count
      from the end; a position outside the column raises IndexError (`None`). */
  function ILoc(col: seq<Cell>, k: int): Option<Cell>
  {
    if 0 <= k < |col| then Some(col[k])
    else if -|col| <= k < 0 then Some(col[|col| + k])
    else None
  }

  /** The outcome of `col.iloc[-1] - col.iloc[-10]`: IndexError, NaN
      (either cell missing), or a number. */
  datatype Recovery = TooFewRows | Undefined | Delta(value: real)

  function RecoveryDelta(col: seq<Cell>): (r: Recovery)
    ensures r.TooFewRows? <==> |col| < 10
    ensures |col| >= 10 ==> (r.Delta? <==> col[|col| - 1].Some? && col[|col| - 10].Some?)
    ensures r.Delta? ==> r.value == col[|col| - 1].value - col[|col| - 10].value
  {
    match (ILoc(col, -1), ILoc(col, -10))
    case (Some(Some(last)), Some(Some(earlier))) => Delta(last - earlier)
    case (Some(_), Some(_)) => Undefined
    case _ => TooFewRows
  }

  /** With exactly ten rows the delta compares the last row with the first. */
  lemma RecoveryOfTenRows(col: seq<Cell>)
    requires |col| == 10 && col[0].Some? && col[9].Some?
    ensures RecoveryDelta(col) == Delta(col[9].value - col[0].value)
  {
  }

  /** Only the last ten rows matter: rows before them never change the delta. */
  lemma RecoveryUsesLastTenRows(earlier: seq<Cell>, col: seq<Cell>)
    requires |col| >= 10
    ensures RecoveryDelta(earlier + col) == RecoveryDelta(col)
  {
    var whole := earlier + col;
    assert whole[|whole| - 1] == col[|col| - 1];
    assert whole[|whole| - 10] == col[|col| - 10];
  }

  /** Eleven heart-rate samples 70, 71, ..., 80: the offset is nine rows
      back, so the delta is 80 - 71. */
  lemma RecoveryOfElevenSamples()
    ensures RecoveryDelta(seq(11, i => Some(70.0 + i as real))) == Delta(9.0)
  {
    var col: seq<Cell> := seq(11, i => Some(70.0 + i as real));
    assert col[10] == Some(80.0) && col[1] == Some(71.0);
  }
}
