/** Worked examples of the accumulator, the differencer and the pipeline on
    concrete values. */
module Scenarios {
  import opened Numbers
  import opened Outcomes
  import opened Differencer
  import opened Accumulator
  import opened Records

  function Vol(x: real): (v: Option<Num>) {
    Some(Finite(x))
  }

  /** A triple with a missing volume is rejected: nothing is appended. */
  lemma MissingVolumeIsRejected()
    ensures var d := AddVol(NewData("GTV"), Vol(1.0), Vol(2.0), None);
            && d == NewData("GTV")
            && |d.volPhase1| == |d.volPhase2| == |d.volPhase3| == 0
  {
  }

  /** A complete triple followed by an incomplete one leaves only the first. */
  lemma OnlyCompleteTriplesAreKept()
    ensures var d := AddVol(AddVol(NewData("GTV"), Vol(1.0), Vol(2.0), Vol(3.0)), None, Vol(1.0), Vol(1.0));
            && d.volPhase1 == [Vol(1.0)]
            && d.volPhase2 == [Vol(2.0)]
            && d.volPhase3 == [Vol(3.0)]
  {
  }

  /** An infinite single difference is kept: the mean is +inf, and the
      spread is NaN because `inf - inf` is NaN. */
  lemma InfiniteSingleDifference(x: real)
    ensures AvgStdDev([Some(Inf(true))], [Vol(x)]) == Success(Moments(Inf(true), NaN, 1))
  {
    var v1, v2 := [Some(Inf(true))], [Vol(x)];
    assert KeptIndicesFrom(v1, v2, 1) == [];
    assert Differences(v1, v2) == [Inf(true)];
    assert Sum([Inf(true)]) == Add(Sum([]), Inf(true));
  }

  /** Vectors of lengths 3 and 4 are never truncated to a common length. */
  lemma MismatchedLengthsFail()
    ensures AvgStdDev([Vol(1.0), Vol(2.0), Vol(3.0)], [Vol(1.0), Vol(2.0), Vol(3.0), Vol(4.0)])
            == Failure(LengthMismatch(3, 4))
  {
  }

  /** A pair holding a NaN is dropped: of the three positions only the first
      and the last contribute, with differences 1 and 2. */
  lemma NaNPairIsDropped(x: real)
    ensures AvgStdDev([Vol(x + 1.0), Some(NaN), Vol(x + 3.0)], [Vol(x), Vol(x), Vol(x + 1.0)])
            == Success(Moments(Finite(1.5), Finite(0.5), 2))
  {
    var v1, v2 := [Vol(x + 1.0), Some(NaN), Vol(x + 3.0)], [Vol(x), Vol(x), Vol(x + 1.0)];
    AvgStdDevOfFiniteValues(v1, v2);
    NaNPairDifferences(v1, v2, x);
    OneAndTwoStats();
  }

  lemma NaNPairDifferences(v1: seq<Option<Num>>, v2: seq<Option<Num>>, x: real)
    requires v1 == [Vol(x + 1.0), Some(NaN), Vol(x + 3.0)] && v2 == [Vol(x), Vol(x), Vol(x + 1.0)]
    ensures KeptIndices(v1, v2) == [0, 2]
    ensures KeptRealDifferences(v1, v2) == [1.0, 2.0]
  {
    assert KeptIndicesFrom(v1, v2, 3) == [];
    assert KeptIndicesFrom(v1, v2, 2) == [2];
    assert KeptIndicesFrom(v1, v2, 1) == [2];
  }

  /** Mean and Bessel-corrected variance of [1, 2]. */
  lemma OneAndTwoStats()
    ensures Mean([1.0, 2.0]) == 1.5
    ensures SampleVariance([1.0, 2.0]) == 0.5
  {
    var xs := [1.0, 2.0];
    RealSumOfTwo(xs);
    var sq := RealSquaredDeviations(xs, 1.5);
    assert sq == [0.25, 0.25];
    RealSumOfTwo(sq);
  }

  /** Two rows carrying only GTV volumes. */
  const GtvRows: seq<Record> := [
    Record("P1", Vol(10.0), Vol(12.0), Vol(11.0), None, None, None, None, None, None),
    Record("P2", Vol(8.0), Vol(9.0), Vol(10.0), None, None, None, None, None, None)]

  /** The GTV accumulator holds both rows' volumes in row order; the other
      two accumulators stay empty. */
  lemma GtvRowsAccumulate()
    ensures var ds := RecordsToData(GtvRows);
            && ds[0].volPhase1 == GtvPhase1
            && ds[0].volPhase2 == GtvPhase2
            && ds[0].volPhase3 == [Vol(11.0), Vol(10.0)]
            && ds[1].volPhase1 == [] && ds[2].volPhase1 == []
  {
    var t0, t1 := VolumesOf(GtvRows[0], Gtv), VolumesOf(GtvRows[1], Gtv);
    GtvRowsAdmitted();
    assert Phase1Column([t0, t1]) == GtvPhase1;
    assert Phase2Column([t0, t1]) == GtvPhase2;
    assert Phase3Column([t0, t1]) == [Vol(11.0), Vol(10.0)];
    assert Phase1Column([]) == [];
    assert Rois[0] == Gtv && Rois[1] == GtvN && Rois[2] == PtvDp;
  }

  /** Both rows' GTV triples are admitted; no GTV_N or PTV_DP triple is. */
  lemma GtvRowsAdmitted()
    ensures AdmittedTriples(GtvRows, Gtv) == [VolumesOf(GtvRows[0], Gtv), VolumesOf(GtvRows[1], Gtv)]
    ensures AdmittedTriples(GtvRows, GtvN) == []
    ensures AdmittedTriples(GtvRows, PtvDp) == []
  {
    assert GtvRows[..1][..0] == [] && GtvRows[..|GtvRows| - 1] == GtvRows[..1];
  }

  /** The GTV volumes of phases 1 and 2 of the two rows. */
  const GtvPhase1: seq<Option<Num>> := [Vol(10.0), Vol(8.0)]
  const GtvPhase2: seq<Option<Num>> := [Vol(12.0), Vol(9.0)]

  /** Both positions contribute, and the differences are phase 1 minus phase 2. */
  lemma GtvRowsDifferences()
    ensures KeptIndices(GtvPhase1, GtvPhase2) == [0, 1]
    ensures KeptRealDifferences(GtvPhase1, GtvPhase2) == [-2.0, -1.0]
  {
    var v1, v2 := GtvPhase1, GtvPhase2;
    assert KeptIndicesFrom(v1, v2, 2) == [];
    assert KeptIndicesFrom(v1, v2, 1) == [1];
  }

  /** Mean and Bessel-corrected variance of [-2, -1]. */
  lemma DifferenceStats()
    ensures Mean([-2.0, -1.0]) == -1.5
    ensures SampleVariance([-2.0, -1.0]) == 0.5
  {
    var xs := [-2.0, -1.0];
    RealSumOfTwo(xs);
    var sq := RealSquaredDeviations(xs, -1.5);
    assert sq == [0.25, 0.25];
    RealSumOfTwo(sq);
  }

  /** The differencer on the GTV rows: average -1.5, variance 0.5, two pairs. */
  lemma GtvRowsMoments()
    ensures AvgStdDev(GtvPhase1, GtvPhase2) == Success(Moments(Finite(-1.5), Finite(0.5), 2))
  {
    AvgStdDevOfFiniteValues(GtvPhase1, GtvPhase2);
    GtvRowsDifferences();
    DifferenceStats();
  }

  lemma RealSumOfTwo(xs: seq<real>)
    requires |xs| == 2
    ensures RealSum(xs) == xs[0] + xs[1]
  {
    assert xs[..1][..0] == [];
    assert RealSum(xs[..1]) == RealSum(xs[..1][..0]) + xs[0];
  }

  /** The mean GTV volume of phase 1 over the two rows is 9. */
  lemma GtvRowsStartVolume()
    ensures Div(Sum(UnwrapAll(GtvPhase1)), 2.0) == Finite(9.0)
  {
    var v := GtvPhase1;
    FiniteVolumesSum(v);
    var ws := Volumes(v);
    assert ws == [10.0, 8.0];
    RealSumOfTwo(ws);
  }

  /** End to end: the 1 to 2 statistic of the GTV rows has start volume 9,
      average difference -1.5, variance 0.5 and two pairs. */
  lemma GtvRowsPhase1To2()
    ensures var s := Phase1To2Stat(RecordsToData(GtvRows)[0]);
            && s.Success?
            && s.value.roiName == "GTV"
            && s.value.avgVolPhaseStart == Finite(9.0)
            && s.value.avg == Finite(-1.5)
            && s.value.variance == Finite(0.5)
            && s.value.n == 2
  {
    GtvRowsAccumulate();
    GtvRowsMoments();
    GtvRowsStartVolume();
  }
}
