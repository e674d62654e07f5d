/** The VO2-max ranking rule of the dashboard (`rank_vo2_max`): a first-match
    classifier over one literal table of inclusive (low, high) ranges per
    gender, with a fallback for values that no range contains. */
module Ranking {
  import opened Wrappers

  datatype Gender = Male | Female

  /** The six labels, in the order of increasing fitness. */
  datatype Rank = VeryPoor | Poor | Fair | Good | Excellent | Superior

  /** An inclusive range `low <= v <= high` of the table. */
  datatype Band = Band(low: real, high: real)
  {
    predicate Contains(v: real) { low <= v <= high }
  }

  /** The label text the dashboard shows. */
  function Name(r: Rank): string
  {
    match r
    case VeryPoor => "Very Poor"
    case Poor => "Poor"
    case Fair => "Fair"
    case Good => "Good"
    case Excellent => "Excellent"
    case Superior => "Superior"
  }

  /** Position of a label in the order Very Poor < Poor < ... < Superior. */
  function Ordinal(r: Rank): nat
  {
    match r
    case VeryPoor => 0
    case Poor => 1
    case Fair => 2
    case Good => 3
    case Excellent => 4
    case Superior => 5
  }

  /** The labels zipped with the ranges of a table, in checking order. */
  const Graded: seq<Rank> := [VeryPoor, Poor, Fair, Good, Excellent]

  /** The literal table of each gender. */
  function Thresholds(g: Gender): seq<Band>
  {
    match g
    case Male => [Band(13.0, 30.0), Band(33.0, 40.0), Band(37.0, 45.0), Band(41.0, 50.0), Band(45.0, 60.0)]
    case Female => [Band(11.0, 28.0), Band(30.0, 35.0), Band(33.0, 40.0), Band(37.0, 45.0), Band(41.0, 50.0)]
  }

  /** The index of the first range that contains `v`, if any. */
  function FirstMatch(bands: seq<Band>, v: real): (r: Option<nat>)
    ensures r.Some? ==> r.value < |bands| && bands[r.value].Contains(v)
    ensures r.Some? ==> forall j :: 0 <= j < r.value ==> !bands[j].Contains(v)
    ensures r.None? ==> forall j :: 0 <= j < |bands| ==> !bands[j].Contains(v)
  {
    if |bands| == 0 then None
    else if bands[0].Contains(v) then Some(0)
    else match FirstMatch(bands[1..], v)
      case None => None
      case Some(k) => Some(k + 1)
  }

  /** The label `rank_vo2_max` returns for `vo2` (its `age` argument is
      never read, so it does not appear here). */
  function Classify(vo2: real, g: Gender): Rank
  {
    var bands := Thresholds(g);
    match FirstMatch(bands, vo2)
    case Some(i) => Graded[i]
    case None => if vo2 > bands[|bands| - 1].high then Superior else VeryPoor
  }

  /** The loop of `rank_vo2_max`: walk the zipped labels and ranges, return
      the first label whose range contains the value, else the fallback. */
  method RankVo2Max(vo2: real, age: int, g: Gender) returns (rank: Rank)
    ensures rank == Classify(vo2, g)
  {
    var bands := Thresholds(g);
    for i := 0 to |Graded|
      invariant forall j :: 0 <= j < i ==> !bands[j].Contains(vo2)
    {
      if bands[i].low <= vo2 <= bands[i].high {
        return Graded[i];
      }
    }
    rank := if vo2 > bands[|bands| - 1].high then Superior else VeryPoor;
  }

  /** Where each label begins once overlaps and gaps are resolved: the
      lowest value labelled Poor, and the highest value labelled Poor,
      Fair, Good and Excellent. */
  function CutPoints(g: Gender): seq<real>
  {
    match g
    case Male => [33.0, 40.0, 45.0, 50.0, 60.0]
    case Female => [30.0, 35.0, 40.0, 45.0, 50.0]
  }

  /** An independent reading of the table as five ascending cut points. */
  function ByCutPoints(vo2: real, g: Gender): Rank
  {
    var c := CutPoints(g);
    if vo2 < c[0] then VeryPoor
    else if vo2 <= c[1] then Poor
    else if vo2 <= c[2] then Fair
    else if vo2 <= c[3] then Good
    else if vo2 <= c[4] then Excellent
    else Superior
  }

  /** The first-match rule over the overlapping, gappy table agrees with
      the cut-point reading for every value. */
  lemma ClassifyByCutPoints(vo2: real, g: Gender)
    ensures Classify(vo2, g) == ByCutPoints(vo2, g)
  {
    var bands := Thresholds(g);
    match FirstMatch(bands, vo2)
    case None =>
      assert !bands[0].Contains(vo2) && !bands[1].Contains(vo2);
      assert !bands[2].Contains(vo2) && !bands[3].Contains(vo2) && !bands[4].Contains(vo2);
    case Some(i) =>
      if i == 0 {
      } else if i == 1 {
        assert !bands[0].Contains(vo2);
      } else if i == 2 {
        assert !bands[1].Contains(vo2);
      } else if i == 3 {
        assert !bands[2].Contains(vo2);
      } else {
        assert i == 4 && !bands[3].Contains(vo2);
      }
  }

  /** With the tables as written, the label never decreases as the value grows. */
  lemma ClassifyMonotone(v1: real, v2: real, g: Gender)
    requires v1 <= v2
    ensures Ordinal(Classify(v1, g)) <= Ordinal(Classify(v2, g))
  {
    ClassifyByCutPoints(v1, g);
    ClassifyByCutPoints(v2, g);
    ByCutPointsMonotone(v1, v2, g);
  }

  lemma ByCutPointsMonotone(v1: real, v2: real, g: Gender)
    requires v1 <= v2
    ensures Ordinal(ByCutPoints(v1, g)) <= Ordinal(ByCutPoints(v2, g))
  {
  }

  /** Only values strictly above the last range's high bound are Superior. */
  lemma SuperiorIffAboveLastBand(vo2: real, g: Gender)
    ensures Classify(vo2, g) == Superior <==> vo2 > Thresholds(g)[4].high
  {
    ClassifyByCutPoints(vo2, g);
  }

  /** Below the Poor range, whether under the first range or in the gap
      after it, the label is Very Poor, and nowhere else. */
  lemma VeryPoorIffBelowPoorBand(vo2: real, g: Gender)
    ensures Classify(vo2, g) == VeryPoor <==> vo2 < Thresholds(g)[1].low
  {
    ClassifyByCutPoints(vo2, g);
  }

  /** Where two ranges overlap, the one checked first decides. */
  lemma EarlierBandWins(vo2: real, g: Gender, i: nat, j: nat)
    requires i < j < |Graded|
    requires Thresholds(g)[i].Contains(vo2) && Thresholds(g)[j].Contains(vo2)
    ensures Classify(vo2, g) != Graded[j]
    ensures Ordinal(Classify(vo2, g)) <= Ordinal(Graded[i])
  {
    var r := FirstMatch(Thresholds(g), vo2);
    assert r.Some? && r.value <= i;
  }

  /** Whatever the gender and value, the rule answers with one of the six
      label texts. */
  lemma RankIsOneOfSixLabels(vo2: real, g: Gender)
    ensures Name(Classify(vo2, g)) in ["Very Poor", "Poor", "Fair", "Good", "Excellent", "Superior"]
  {
  }

  /** Concrete boundary cases of the tables. */
  lemma BoundaryExamples()
    ensures Classify(38.0, Male) == Poor && Classify(42.0, Male) == Fair
    ensures Classify(34.0, Female) == Poor
    ensures Classify(60.0, Male) == Excellent && Classify(60.5, Male) == Superior
    ensures Classify(50.0, Female) == Excellent && Classify(50.5, Female) == Superior
    ensures Classify(5.0, Male) == VeryPoor && Classify(31.0, Male) == VeryPoor
    ensures Classify(29.0, Female) == VeryPoor
  {
    ClassifyByCutPoints(38.0, Male);
    ClassifyByCutPoints(42.0, Male);
    ClassifyByCutPoints(34.0, Female);
    ClassifyByCutPoints(60.0, Male);
    ClassifyByCutPoints(60.5, Male);
    ClassifyByCutPoints(50.0, Female);
    ClassifyByCutPoints(50.5, Female);
    ClassifyByCutPoints(5.0, Male);
    ClassifyByCutPoints(31.0, Male);
    ClassifyByCutPoints(29.0, Female);
  }
}
