# VO2 Max Test Analyzer: a verified model of its metric calculations

The dashboard script `appy.py` reads a semicolon-separated cardiopulmonary
exercise test export, trims the column names, and then derives a handful
of numbers from the table: the peak VO2 divided by body weight and its
fitness label, the mean carbohydrate and fat shares, and two "recovery"
deltas (heart rate and VCO2, last row against the tenth row from the end).
This project models those calculations in Dafny and proves what they
compute.

- `wrappers.dfy` (`Wrappers`): an `Option` type. A missing cell (pandas'
  NaN) is `None`.
- `ranking.dfy` (`Ranking`): `rank_vo2_max`. It holds the two literal tables
  of inclusive `(low, high)` ranges, the first-match search as a
  specification function (`FirstMatch`, `Classify`) and as the loop with an
  early return that the script runs (`RankVo2Max`). It also gives an
  independent reading of each table as five ascending cut points
  (`ByCutPoints`) and proves the two agree for every value. Monotonicity,
  the Superior and Very Poor boundaries and the overlap rule follow from
  that.
- `metrics.dfy` (`Metrics`): `Series.max` and `Series.mean`, which skip
  NaN; the per-kilogram division; and `iloc[-1] - iloc[-10]` with pandas'
  negative positions and its IndexError.
- `header.dfy` (`Header`): Python's `str.strip()` with its default
  whitespace set, applied to every column name.
- `dashboard.dfy` (`Dashboard`): the uploaded table as a `Frame` object.
  Its header is trimmed in place, as line 27 reassigns `df.columns`.
  `Analyse` runs the metric sections in the order of the script, and `Run`
  trims the header and then analyses, as the script does.

The sidebar bounds are preconditions: age 10 to 100 (line 16), weight 30 to
200 kg (line 18). Numbers are Dafny `real`s.

Where the code and the design description of the system disagree, the
model follows the code:
- The description asks for an age-stratified ranking table. The code has a
  single age-independent table per gender and never reads `age`.
- The description says the recovery delta looks 10 rows back and needs 11
  rows. The code's `iloc[-10]` looks 9 rows back and needs 10 rows. For the
  eleven samples 70, 71, ..., 80 it gives 80 - 71 = 9, not 10
  (`RecoveryOfElevenSamples`). With fewer rows the code raises IndexError,
  which ends the script. It does not report "insufficient data".
- The description asks for an explicit error on a non-positive weight. The
  code relies on the weight widget's lower bound of 30.
- The description calls the table's cut points ascending and disjoint. The
  code's ranges overlap (Male Poor 33-40, Fair 37-45) and leave gaps (Male
  30-33). First-match order resolves them into the cut points 33, 40, 45,
  50, 60 (Male) and 30, 35, 40, 45, 50 (Female); `ClassifyByCutPoints`
  proves this.

## Model

| member | source | states |
|---|---|---|
| Ranking.FirstMatch | appy.py:42-44 | returns the index of a range that contains the value with no earlier range containing it, or None exactly when no range contains it |
| Ranking.RankVo2Max | appy.py:37-45 | the loop over the zipped labels and ranges, with its early return and fallback, returns `Classify(vo2, gender)`; the result does not depend on `age` |
| Ranking.ClassifyByCutPoints | appy.py:39-45 | for every value and gender, the first-match rule over the overlapping, gappy table equals the reading as five ascending cut points |
| Ranking.ClassifyMonotone | appy.py:39-45 | with the tables as written, a larger value never gets a lower label in the order Very Poor < ... < Superior |
| Ranking.SuperiorIffAboveLastBand | appy.py:45 | Superior exactly when the value is strictly above the last range's high bound (60 Male, 50 Female) |
| Ranking.VeryPoorIffBelowPoorBand | appy.py:39-45 | Very Poor exactly when the value is below the Poor range's low bound, i.e. below the first range or in the gap after it |
| Ranking.EarlierBandWins | appy.py:42-44 | where two ranges both contain the value, the later one's label is never the answer and the answer is no higher than the earlier one's |
| Ranking.BoundaryExamples | appy.py:39-45 | Male 38 Poor, Male 42 Fair, Female 34 Poor, Male 60 Excellent and 60.5 Superior, Female 50 Excellent and 50.5 Superior, Male 5 and 31 and Female 29 Very Poor |
| Ranking.RankIsOneOfSixLabels | appy.py:42-45 | the label text is one of Very Poor, Poor, Fair, Good, Excellent, Superior |
| Metrics.Present | appy.py:48 | the values pandas' reductions see: each number occurs as often as the non-missing cells holding it, and nothing else occurs |
| Metrics.Peak | appy.py:48 | `Series.max`: None (NaN) exactly for no values; otherwise one of the values and at least every value |
| Metrics.PeakOrderIndependent | appy.py:48 | two columns holding the same values in any row order have the same peak |
| Metrics.PerKg | appy.py:49 | the per-kilogram value times the weight is the peak; for a non-negative peak it lies between 0 and peak / 30 |
| Metrics.Mean | appy.py:67-68 | `Series.mean`: None (NaN) exactly for no values; otherwise the mean times the count is the sum |
| Metrics.MeanWithinBounds | appy.py:67-68 | the mean of a non-empty column lies within any lower and upper bound of its values, so between its minimum and maximum |
| Metrics.MeanAtMostPeak | appy.py:67-68 | the mean of a non-empty column never exceeds its peak |
| Metrics.RecoveryDelta | appy.py:78 | IndexError exactly when there are fewer than 10 rows; otherwise a number exactly when the last cell and the cell at position n-10 are present, and then it is their difference |
| Metrics.RecoveryOfTenRows | appy.py:78 | with exactly ten rows the delta is last minus first |
| Metrics.RecoveryUsesLastTenRows | appy.py:78-82 | rows before the last ten never change the delta |
| Metrics.RecoveryOfElevenSamples | appy.py:78 | samples 70, 71, ..., 80 give 80 - 71 = 9 |
| Header.TrimStart | appy.py:27 | a suffix of the name that does not start with whitespace; everything removed is whitespace |
| Header.TrimEnd | appy.py:27 | a prefix of the name that does not end with whitespace; everything removed is whitespace |
| Header.Strip | appy.py:27 | `str.strip()`: the contiguous part of the name that starts where its leading whitespace ends, followed only by whitespace, and neither end of it is whitespace |
| Header.StripTrimmed | appy.py:27 | a name without surrounding whitespace is left unchanged |
| Header.StripIdempotent | appy.py:27 | stripping twice is stripping once |
| Header.StripAll | appy.py:27 | `df.columns.str.strip()`: as many names as before, each the stripped name in the same position |
| Header.StripAllClean | appy.py:27 | no name of the trimmed header begins or ends with whitespace |
| Header.StripAllIdempotent | appy.py:27 | trimming the header twice is trimming it once |
| Dashboard.IndexOf | appy.py:47 | the position of the first column with that name, None exactly when the name is not in the header |
| Dashboard.Frame.Column | appy.py:47-48 | present exactly when the header has the name; then the cells of the first column carrying that name, one per row |
| Dashboard.Frame.constructor | appy.py:26 | the table as read: as many columns as names, every column as long as the table |
| Dashboard.Frame.StripColumnNames | appy.py:27 | the header becomes `StripAll` of the old header; the cells and the row count do not change |
| Dashboard.EstimateVo2Max | appy.py:47-50 | with numbers in the VO2 column: per-kg value `PerKg(peak, weight)` and label `Classify` of it; with none (NaN): no value and Very Poor, as NaN fails every comparison of the rule |
| Dashboard.Frame.Analyse | appy.py:47-83 | `Reports`: each section runs exactly when its columns are in the header and yields the functions above; a heart-rate delta on fewer than 10 rows ends the run, so the VCO2 delta is then absent |
| Dashboard.Frame.Run | appy.py:27-83 | the header becomes `StripAll` of the old one, cells and rows unchanged, and the report is what `Reports` states over the trimmed names |

## Left out

- The Streamlit page: the sidebar widgets, the name, date, height and target
  weight inputs (never used in a calculation), the metric display and its
  `:.2f` formatting (lines 7-23, 29-30, 51, 79, 83). The widget bounds on
  age and weight are the only part kept, as preconditions.
- Reading the CSV file (line 26). A `Frame` is built from names and cells
  that are already numbers or missing.
- `pd.to_numeric(..., errors='ignore')` (lines 33-34). Number parsing is
  library behaviour. With `errors='ignore'` a column that does not parse
  entirely stays text, and the model has no text cells.
- The plots, the pie chart, the RER chart and `describe()` (lines 56-64,
  70-73, 86-93, 97). An exception raised inside the plotting code would also
  stop the later sections; that is not modelled.
- IEEE floating point. `PerKg` and `Mean` divide exactly, and NaN appears
  only as a missing cell or as the result of a reduction over no values.
- Duplicate column names, for instance after trimming " HR(bpm)" and
  "HR(bpm)". For those pandas' `df[name]` returns a table, not a column.
  The model takes the first column of that name.
- Time sorting, moving-average smoothing, ventilatory thresholds, FatMax and
  the substrate crossover appear in the system's design description but not
  in `appy.py`, so they are not modelled.
