/** The ROI accumulator `Data`: a ROI name and three parallel vectors of
    volumes, one per phase, with the two phase-transition statistics derived
    from them.

    The vectors are private in the source, so every reachable `Data` is built
    by `new`, `add_vol` and `clear`; `Valid` is the invariant those three keep.
    The statistics are defined on every `Data`, valid or not. */
module Accumulator {
  import opened Numbers
  import opened Outcomes
  import opened Differencer
  import opened Stats

  datatype Data = Data(
    roiName: string,
    volPhase1: seq<Option<Num>>,
    volPhase2: seq<Option<Num>>,
    volPhase3: seq<Option<Num>>)

  /** A triple `add_vol` accepts: all three volumes present and none NaN. */
  predicate Admissible(v1: Option<Num>, v2: Option<Num>, v3: Option<Num>) {
    && v1.Some? && !v1.value.NaN?
    && v2.Some? && !v2.value.NaN?
    && v3.Some? && !v3.value.NaN?
  }

  /** The three vectors have one entry per accepted triple: equal lengths,
      and every position holds an admissible triple. */
  predicate Valid(d: Data) {
    && |d.volPhase1| == |d.volPhase2| == |d.volPhase3|
    && forall i :: 0 <= i < |d.volPhase1| ==>
         Admissible(d.volPhase1[i], d.volPhase2[i], d.volPhase3[i])
  }

  /** `Data::new`: a named, empty accumulator. */
  function NewData(name: string): (d: Data)
    ensures d.roiName == name
    ensures d.volPhase1 == d.volPhase2 == d.volPhase3 == []
    ensures Valid(d)
  {
    Data(name, [], [], [])
  }

  /** `Data::add_vol`: appends the triple to the three vectors, or leaves the
      accumulator as it is when any volume is missing or NaN. */
  function AddVol(d: Data, v1: Option<Num>, v2: Option<Num>, v3: Option<Num>): (r: Data)
    ensures r.roiName == d.roiName
    ensures Admissible(v1, v2, v3) ==>
      && r.volPhase1 == d.volPhase1 + [v1]
      && r.volPhase2 == d.volPhase2 + [v2]
      && r.volPhase3 == d.volPhase3 + [v3]
    ensures !Admissible(v1, v2, v3) ==> r == d
    ensures Valid(d) ==> Valid(r)
  {
    var n1 := v1.UnwrapOr(NaN);
    var n2 := v2.UnwrapOr(NaN);
    var n3 := v3.UnwrapOr(NaN);
    if n1.NaN? || n2.NaN? || n3.NaN? then d
    else
      d.(volPhase1 := d.volPhase1 + [Some(n1)],
         volPhase2 := d.volPhase2 + [Some(n2)],
         volPhase3 := d.volPhase3 + [Some(n3)])
  }

  /** `Data::clear`: empties the three vectors and keeps the name. */
  function Clear(d: Data): (r: Data)
    ensures r.roiName == d.roiName
    ensures r.volPhase1 == r.volPhase2 == r.volPhase3 == []
    ensures Valid(r)
  {
    d.(volPhase1 := [], volPhase2 := [], volPhase3 := [])
  }

  /** `x.unwrap_or(f64::NAN)` over a phase vector. */
  function UnwrapAll(v: seq<Option<Num>>): (r: seq<Num>)
    ensures |r| == |v|
    ensures forall i :: 0 <= i < |v| ==> r[i] == v[i].UnwrapOr(NaN)
  {
    seq(|v|, i requires 0 <= i < |v| => v[i].UnwrapOr(NaN))
  }

  /** `Data::phase_1_to_2_stat`. */
  function Phase1To2Stat(d: Data): (r: Result<Stat>)
    ensures r.Failure? <==> |d.volPhase1| != |d.volPhase2|
    ensures r.Failure? ==> r.error == LengthMismatch(|d.volPhase1|, |d.volPhase2|)
    ensures r.Success? ==>
      && r.value.roiName == d.roiName
      && r.value.phaseStart == 1 && r.value.phaseEnd == 2
      && r.value.n == |KeptIndices(d.volPhase1, d.volPhase2)|
      && AvgStdDev(d.volPhase1, d.volPhase2) == Success(Moments(r.value.avg, r.value.variance, r.value.n))
    ensures Valid(d) ==> r.Success?
  {
    var avgVol := Div(Sum(UnwrapAll(d.volPhase1)), |d.volPhase1| as real);
    var m :- AvgStdDev(d.volPhase1, d.volPhase2);
    Success(Stat(d.roiName, avgVol, 1, 2, m.avg, m.variance, m.n))
  }

  /** `Data::phase_2_to_3_stat`. The start volume divides the phase-2 sum by
      the length of the phase-1 vector. */
  function Phase2To3Stat(d: Data): (r: Result<Stat>)
    ensures r.Failure? <==> |d.volPhase2| != |d.volPhase3|
    ensures r.Failure? ==> r.error == LengthMismatch(|d.volPhase2|, |d.volPhase3|)
    ensures r.Success? ==>
      && r.value.roiName == d.roiName
      && r.value.phaseStart == 2 && r.value.phaseEnd == 3
      && r.value.n == |KeptIndices(d.volPhase2, d.volPhase3)|
      && AvgStdDev(d.volPhase2, d.volPhase3) == Success(Moments(r.value.avg, r.value.variance, r.value.n))
    ensures Valid(d) ==> r.Success?
  {
    var avgVol := Div(Sum(UnwrapAll(d.volPhase2)), |d.volPhase1| as real);
    var m :- AvgStdDev(d.volPhase2, d.volPhase3);
    Success(Stat(d.roiName, avgVol, 2, 3, m.avg, m.variance, m.n))
  }

  /** Every volume is present and finite. */
  predicate AllFiniteVolumes(v: seq<Option<Num>>) {
    forall i :: 0 <= i < |v| ==> v[i].Some? && v[i].value.Finite?
  }

  function Volumes(v: seq<Option<Num>>): (r: seq<real>)
    requires AllFiniteVolumes(v)
    ensures |r| == |v|
    ensures forall i :: 0 <= i < |v| ==> r[i] == v[i].value.x
  {
    seq(|v|, i requires 0 <= i < |v| => v[i].value.x)
  }

  /** On a valid accumulator with finite volumes, each statistic's start
      volume is the mean of its start phase over all stored entries, and every
      stored entry contributes a difference. For the 2 to 3 statistic this
      relies on the equal lengths `Valid` keeps. */
  lemma StatsOfFiniteData(d: Data)
    requires Valid(d) && |d.volPhase1| > 0
    requires AllFiniteVolumes(d.volPhase1) && AllFiniteVolumes(d.volPhase2) && AllFiniteVolumes(d.volPhase3)
    ensures Phase1To2Stat(d).value.avgVolPhaseStart == Finite(Mean(Volumes(d.volPhase1)))
    ensures Phase2To3Stat(d).value.avgVolPhaseStart == Finite(Mean(Volumes(d.volPhase2)))
    ensures Phase1To2Stat(d).value.n == |d.volPhase1|
    ensures Phase2To3Stat(d).value.n == |d.volPhase2|
  {
    FiniteVolumesSum(d.volPhase1);
    FiniteVolumesSum(d.volPhase2);
    AllKept(d.volPhase1, d.volPhase2);
    AllKept(d.volPhase2, d.volPhase3);
  }

  lemma FiniteVolumesSum(v: seq<Option<Num>>)
    requires AllFiniteVolumes(v)
    ensures Sum(UnwrapAll(v)) == Finite(RealSum(Volumes(v)))
  {
    assert AllFinite(UnwrapAll(v));
    assert Reals(UnwrapAll(v)) == Volumes(v);
    SumOfFinite(UnwrapAll(v));
  }

  /** When every position holds two finite values, every position is kept. */
  lemma AllKept(v1: seq<Option<Num>>, v2: seq<Option<Num>>)
    requires |v1| == |v2| && AllFiniteVolumes(v1) && AllFiniteVolumes(v2)
    ensures |KeptIndices(v1, v2)| == |v1|
  {
    CountIsFullIffAllKept(v1, v2);
  }

  /** Only the equal-length invariant makes the 2 to 3 start volume a mean of
      phase 2: on a vector layout `Valid` rules out, the phase-2 sum is divided
      by the phase-1 length (here zero), giving infinity instead of `x`. */
  lemma Phase2To3DividesByPhase1Length(x: real, v3: Option<Num>)
    requires x > 0.0
    ensures var d := Data("GTV", [], [Some(Finite(x))], [v3]);
            && !Valid(d)
            && Phase2To3Stat(d).Success?
            && Phase2To3Stat(d).value.avgVolPhaseStart == Inf(true)
  {
    var d := Data("GTV", [], [Some(Finite(x))], [v3]);
    Phase2To3StartVolume(d);
    SumOfOneVolume(x);
  }

  lemma SumOfOneVolume(x: real)
    ensures Sum(UnwrapAll([Some(Finite(x))])) == Finite(x)
  {
    var u := UnwrapAll([Some(Finite(x))]);
    assert u == [Finite(x)];
    assert u[..0] == [];
  }

  lemma Phase2To3StartVolume(d: Data)
    requires |d.volPhase2| == |d.volPhase3|
    ensures Phase2To3Stat(d).Success?
    ensures Phase2To3Stat(d).value.avgVolPhaseStart == Div(Sum(UnwrapAll(d.volPhase2)), |d.volPhase1| as real)
  {
  }
}
