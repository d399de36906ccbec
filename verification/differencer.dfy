/** The pairwise differencer (`avg_std_dev_from_vectors`): pairs two vectors of
    optional volumes by position, keeps each difference `v1[i] - v2[i]` whose
    operands are both present and whose value is not NaN, and returns the mean
    of the kept differences, their Bessel-corrected spread and their count.

    The spread is returned as the sample variance: the square root the source
    takes last is not modelled, so `variance` is the square of `std_dev`. */
module Differencer {
  import opened Numbers
  import opened Outcomes

  /** What the differencer returns on success: `(avg, std_dev², n)`. */
  datatype Moments = Moments(avg: Num, variance: Num, n: nat)

  /** The closure given to `filter_map`: the difference when both sides are present. */
  function PairDifference(o1: Option<Num>, o2: Option<Num>): (r: Option<Num>) {
    if o1.Some? && o2.Some? then Some(Sub(o1.value, o2.value)) else None
  }

  /** Position `i` contributes a difference: both values are present and their
      difference is a number. Stated on the operands, not on the result. */
  predicate Kept(o1: Option<Num>, o2: Option<Num>) {
    o1.Some? && o2.Some? && Subtractable(o1.value, o2.value)
  }

  /** The `zip`/`filter_map`/`filter(!is_nan)` pipeline over positions `i..`. */
  function DifferencesFrom(v1: seq<Option<Num>>, v2: seq<Option<Num>>, i: nat): (r: seq<Num>)
    requires |v1| == |v2| && i <= |v1|
    decreases |v1| - i
  {
    if i == |v1| then []
    else
      var rest := DifferencesFrom(v1, v2, i + 1);
      match PairDifference(v1[i], v2[i])
      case None => rest
      case Some(d) => if d.NaN? then rest else [d] + rest
  }

  function Differences(v1: seq<Option<Num>>, v2: seq<Option<Num>>): (r: seq<Num>)
    requires |v1| == |v2|
  {
    DifferencesFrom(v1, v2, 0)
  }

  /** The positions at or after `i` that contribute, in increasing order. */
  function KeptIndicesFrom(v1: seq<Option<Num>>, v2: seq<Option<Num>>, i: nat): (r: seq<nat>)
    requires |v1| == |v2| && i <= |v1|
    ensures forall j :: 0 <= j < |r| ==> i <= r[j] < |v1| && Kept(v1[r[j]], v2[r[j]])
    decreases |v1| - i
  {
    if i == |v1| then []
    else
      var rest := KeptIndicesFrom(v1, v2, i + 1);
      if Kept(v1[i], v2[i]) then [i] + rest else rest
  }

  function KeptIndices(v1: seq<Option<Num>>, v2: seq<Option<Num>>): (r: seq<nat>)
    requires |v1| == |v2|
  {
    KeptIndicesFrom(v1, v2, 0)
  }

  /** The kept positions are listed in strictly increasing order, and a
      position is listed exactly when it is kept. */
  lemma KeptIndicesExact(v1: seq<Option<Num>>, v2: seq<Option<Num>>)
    requires |v1| == |v2|
    ensures var ks := KeptIndices(v1, v2);
            && StrictlyIncreasing(ks)
            && (forall k :: k in ks <==> 0 <= k < |v1| && Kept(v1[k], v2[k]))
  {
    var ks := KeptIndices(v1, v2);
    assert ks == KeptIndicesFrom(v1, v2, 0);
    KeptIndicesIncreasing(v1, v2, 0);
    KeptIndicesComplete(v1, v2, 0);
    forall k | k in ks
      ensures 0 <= k < |v1| && Kept(v1[k], v2[k])
    {
      var j :| 0 <= j < |ks| && ks[j] == k;
    }
  }

  /** Every element is smaller than each later one. */
  predicate StrictlyIncreasing(ks: seq<nat>) {
    forall j, k :: 0 <= j < k < |ks| ==> ks[j] < ks[k]
  }

  lemma {:induction false} KeptIndicesIncreasing(v1: seq<Option<Num>>, v2: seq<Option<Num>>, i: nat)
    requires |v1| == |v2| && i <= |v1|
    ensures StrictlyIncreasing(KeptIndicesFrom(v1, v2, i))
    decreases |v1| - i
  {
    if i < |v1| {
      var rest := KeptIndicesFrom(v1, v2, i + 1);
      KeptIndicesIncreasing(v1, v2, i + 1);
      if Kept(v1[i], v2[i]) {
        assert KeptIndicesFrom(v1, v2, i) == [i] + rest;
        PrependSmaller(rest, i);
      } else {
        assert KeptIndicesFrom(v1, v2, i) == rest;
      }
    }
  }

  lemma {:induction false} KeptIndicesComplete(v1: seq<Option<Num>>, v2: seq<Option<Num>>, i: nat)
    requires |v1| == |v2| && i <= |v1|
    ensures forall k :: i <= k < |v1| && Kept(v1[k], v2[k]) ==> k in KeptIndicesFrom(v1, v2, i)
    decreases |v1| - i
  {
    if i < |v1| {
      KeptIndicesComplete(v1, v2, i + 1);
      FromStep(v1, v2, i);
    }
  }

  /** Prepending an index below every element keeps a sequence strictly
      increasing. */
  lemma PrependSmaller(ks: seq<nat>, i: nat)
    requires StrictlyIncreasing(ks)
    requires forall j :: 0 <= j < |ks| ==> i < ks[j]
    ensures StrictlyIncreasing([i] + ks)
  {
    var ks' := [i] + ks;
    forall j, k | 0 <= j < k < |ks'|
      ensures ks'[j] < ks'[k]
    {
      assert ks'[k] == ks[k - 1];
      if j > 0 {
        assert ks'[j] == ks[j - 1];
      }
    }
  }

  /** The differences are exactly `v1[k] - v2[k]` for the kept positions `k`,
      in position order, never `v2[k] - v1[k]`. */
  lemma {:induction false} DifferencesAtKeptIndices(v1: seq<Option<Num>>, v2: seq<Option<Num>>, i: nat)
    requires |v1| == |v2| && i <= |v1|
    ensures DifferencesAt(DifferencesFrom(v1, v2, i), KeptIndicesFrom(v1, v2, i), v1, v2)
    decreases |v1| - i
  {
    if i < |v1| {
      DifferencesAtKeptIndices(v1, v2, i + 1);
      FromStep(v1, v2, i);
      if Kept(v1[i], v2[i]) {
        PrependDifference(DifferencesFrom(v1, v2, i + 1), KeptIndicesFrom(v1, v2, i + 1), v1, v2, i);
      }
    }
  }

  /** One step of both recursions: position `i` contributes to both or to neither. */
  lemma FromStep(v1: seq<Option<Num>>, v2: seq<Option<Num>>, i: nat)
    requires |v1| == |v2| && i < |v1|
    ensures Kept(v1[i], v2[i]) ==>
      && DifferencesFrom(v1, v2, i) == [Sub(v1[i].value, v2[i].value)] + DifferencesFrom(v1, v2, i + 1)
      && KeptIndicesFrom(v1, v2, i) == [i] + KeptIndicesFrom(v1, v2, i + 1)
    ensures !Kept(v1[i], v2[i]) ==>
      && DifferencesFrom(v1, v2, i) == DifferencesFrom(v1, v2, i + 1)
      && KeptIndicesFrom(v1, v2, i) == KeptIndicesFrom(v1, v2, i + 1)
  {
  }

  /** Position `i` adds one to the count exactly when it is kept. */
  lemma CountStep(v1: seq<Option<Num>>, v2: seq<Option<Num>>, i: nat)
    requires |v1| == |v2| && i < |v1|
    ensures |KeptIndicesFrom(v1, v2, i)| ==
      |KeptIndicesFrom(v1, v2, i + 1)| + (if Kept(v1[i], v2[i]) then 1 else 0)
  {
  }

  /** `ds[j]` is the difference at position `ks[j]`, for every `j`. */
  predicate DifferencesAt(ds: seq<Num>, ks: seq<nat>, v1: seq<Option<Num>>, v2: seq<Option<Num>>) {
    && |ds| == |ks|
    && forall j :: 0 <= j < |ks| ==>
         && ks[j] < |v1| && ks[j] < |v2| && v1[ks[j]].Some? && v2[ks[j]].Some?
         && ds[j] == Sub(v1[ks[j]].value, v2[ks[j]].value)
  }

  /** Prepending the difference at a kept position keeps the correspondence. */
  lemma PrependDifference(ds: seq<Num>, ks: seq<nat>, v1: seq<Option<Num>>, v2: seq<Option<Num>>, k: nat)
    requires DifferencesAt(ds, ks, v1, v2)
    requires k < |v1| && k < |v2| && v1[k].Some? && v2[k].Some?
    ensures DifferencesAt([Sub(v1[k].value, v2[k].value)] + ds, [k] + ks, v1, v2)
  {
    var ds', ks' := [Sub(v1[k].value, v2[k].value)] + ds, [k] + ks;
    forall j | 0 < j < |ks'|
      ensures ds'[j] == ds[j - 1] && ks'[j] == ks[j - 1]
    {
    }
  }

  /** `map(|d| powf(d - avg, 2.0))`. */
  function SquaredDeviations(ds: seq<Num>, avg: Num): (r: seq<Num>)
    ensures |r| == |ds|
    ensures forall i :: 0 <= i < |ds| ==> r[i] == Square(Sub(ds[i], avg))
  {
    seq(|ds|, i requires 0 <= i < |ds| => Square(Sub(ds[i], avg)))
  }

  /** `avg_std_dev_from_vectors`. The length check comes first; with no kept
      difference the mean is `0/0`, and with one the spread is NaN (`0/0` for
      a finite difference, `NaN/0` for an infinite one). */
  function AvgStdDev(v1: seq<Option<Num>>, v2: seq<Option<Num>>): (r: Result<Moments>)
    ensures r.Failure? <==> |v1| != |v2|
    ensures r.Failure? ==> r.error == LengthMismatch(|v1|, |v2|)
    ensures r.Success? ==> r.value.n == |KeptIndices(v1, v2)| && r.value.n <= |v1|
    ensures r.Success? && r.value.n == 0 ==> r.value.avg == NaN && r.value.variance == Finite(0.0)
    ensures r.Success? && r.value.n == 1 ==> r.value.variance == NaN
  {
    if |v1| != |v2| then Failure(LengthMismatch(|v1|, |v2|))
    else
      var ds := Differences(v1, v2);
      DifferencesAtKeptIndices(v1, v2, 0);
      KeptIndicesBound(v1, v2, 0);
      var n := |ds| as real;
      var avg := Div(Sum(ds), n);
      var variance := Div(Sum(SquaredDeviations(ds, avg)), n - 1.0);
      SingleDifference(ds);
      Success(Moments(avg, variance, |ds|))
  }

  lemma {:induction false} KeptIndicesBound(v1: seq<Option<Num>>, v2: seq<Option<Num>>, i: nat)
    requires |v1| == |v2| && i <= |v1|
    ensures |KeptIndicesFrom(v1, v2, i)| <= |v1| - i
    decreases |v1| - i
  {
    if i < |v1| {
      KeptIndicesBound(v1, v2, i + 1);
    }
  }

  /** The count of kept positions is the full `|v1|` exactly when every
      position contributes. */
  lemma CountIsFullIffAllKept(v1: seq<Option<Num>>, v2: seq<Option<Num>>)
    requires |v1| == |v2|
    ensures |KeptIndices(v1, v2)| == |v1| <==> forall k :: 0 <= k < |v1| ==> Kept(v1[k], v2[k])
  {
    FullCountMeansAllKept(v1, v2, 0);
    if forall k :: 0 <= k < |v1| ==> Kept(v1[k], v2[k]) {
      AllKeptMeansFullCount(v1, v2, 0);
    }
  }

  lemma {:induction false} FullCountMeansAllKept(v1: seq<Option<Num>>, v2: seq<Option<Num>>, i: nat)
    requires |v1| == |v2| && i <= |v1|
    ensures |KeptIndicesFrom(v1, v2, i)| == |v1| - i ==> forall k :: i <= k < |v1| ==> Kept(v1[k], v2[k])
    decreases |v1| - i
  {
    if i < |v1| {
      FullCountMeansAllKept(v1, v2, i + 1);
      KeptIndicesBound(v1, v2, i + 1);
      CountStep(v1, v2, i);
    }
  }

  lemma {:induction false} AllKeptMeansFullCount(v1: seq<Option<Num>>, v2: seq<Option<Num>>, i: nat)
    requires |v1| == |v2| && i <= |v1|
    requires forall k :: i <= k < |v1| ==> Kept(v1[k], v2[k])
    ensures |KeptIndicesFrom(v1, v2, i)| == |v1| - i
    decreases |v1| - i
  {
    if i < |v1| {
      AllKeptMeansFullCount(v1, v2, i + 1);
      CountStep(v1, v2, i);
    }
  }

  /** A single non-NaN difference has a NaN spread, whatever its value:
      `0/0` when it is finite, and `NaN/0` when it is infinite, because
      `inf - inf` is NaN. */
  lemma SingleDifference(ds: seq<Num>)
    ensures |ds| == 1 && !ds[0].NaN? ==>
      var avg := Div(Sum(ds), 1.0);
      Div(Sum(SquaredDeviations(ds, avg)), 0.0) == NaN
  {
    if |ds| == 1 && !ds[0].NaN? {
      assert ds[..0] == [];
      assert Sum(ds) == Add(Finite(0.0), ds[0]);
      assert Sum(ds) == ds[0];
      var avg := Div(Sum(ds), 1.0);
      assert avg == ds[0];
      var sq := SquaredDeviations(ds, avg);
      assert sq[..0] == [];
    }
  }

  // Reference statistics over reals

  function Mean(xs: seq<real>): (m: real)
    requires |xs| > 0
  {
    RealSum(xs) / |xs| as real
  }

  /** Bessel-corrected variance: squared deviations from the mean over `n - 1`. */
  function SampleVariance(xs: seq<real>): (v: real)
    requires |xs| >= 2
  {
    RealSum(RealSquaredDeviations(xs, Mean(xs))) / (|xs| - 1) as real
  }

  function RealSquaredDeviations(xs: seq<real>, m: real): (r: seq<real>)
    ensures |r| == |xs|
    ensures forall i :: 0 <= i < |xs| ==> r[i] == (xs[i] - m) * (xs[i] - m)
  {
    seq(|xs|, i requires 0 <= i < |xs| => (xs[i] - m) * (xs[i] - m))
  }

  /** No present value is an infinity; a present NaN is allowed. */
  predicate NoInfinities(v: seq<Option<Num>>) {
    forall i :: 0 <= i < |v| && v[i].Some? ==> !v[i].value.Inf?
  }

  /** The real differences `v1[k] - v2[k]` at the kept positions. */
  function KeptRealDifferences(v1: seq<Option<Num>>, v2: seq<Option<Num>>): (r: seq<real>)
    requires |v1| == |v2| && NoInfinities(v1) && NoInfinities(v2)
    ensures |r| == |KeptIndices(v1, v2)|
  {
    var ks := KeptIndices(v1, v2);
    KeptIndicesExact(v1, v2);
    seq(|ks|, j requires 0 <= j < |ks| => KeptRealDifference(v1, v2, ks[j]))
  }

  /** The real difference at one kept position of data without infinities. */
  function KeptRealDifference(v1: seq<Option<Num>>, v2: seq<Option<Num>>, k: nat): (x: real)
    requires |v1| == |v2| && NoInfinities(v1) && NoInfinities(v2) && k < |v1| && Kept(v1[k], v2[k])
    ensures Sub(v1[k].value, v2[k].value) == Finite(x)
  {
    v1[k].value.x - v2[k].value.x
  }

  /** On data without infinities the differencer computes the textbook
      statistics of the differences `v1[k] - v2[k]` over exactly the positions
      where both values are present and neither is NaN: their count, their
      mean, and (from two on) their sample variance. */
  lemma AvgStdDevOfFiniteValues(v1: seq<Option<Num>>, v2: seq<Option<Num>>)
    requires |v1| == |v2| && NoInfinities(v1) && NoInfinities(v2)
    ensures forall k :: 0 <= k < |v1| ==>
              (k in KeptIndices(v1, v2) <==> v1[k].Some? && v2[k].Some? && v1[k].value.Finite? && v2[k].value.Finite?)
    ensures var m := AvgStdDev(v1, v2).value;
            var xs := KeptRealDifferences(v1, v2);
            && m.n == |xs|
            && (m.n > 0 ==> m.avg == Finite(Mean(xs)))
            && (m.n >= 2 ==> m.variance == Finite(SampleVariance(xs)))
  {
    var ds := Differences(v1, v2);
    var xs := KeptRealDifferences(v1, v2);
    FiniteDifferences(v1, v2);
    var n := |ds| as real;
    var avg := Div(Sum(ds), n);
    var variance := Div(Sum(SquaredDeviations(ds, avg)), n - 1.0);
    assert AvgStdDev(v1, v2) == Success(Moments(avg, variance, |ds|));
    if |ds| > 0 {
      MeanOfFinite(ds, xs);
      if |ds| >= 2 {
        VarianceOfFinite(ds, xs);
      }
    }
  }

  /** Without infinities the kept positions are those where both values are
      present and finite, and the differences are the finite `KeptRealDifferences`. */
  lemma FiniteDifferences(v1: seq<Option<Num>>, v2: seq<Option<Num>>)
    requires |v1| == |v2| && NoInfinities(v1) && NoInfinities(v2)
    ensures forall k :: 0 <= k < |v1| ==>
              (k in KeptIndices(v1, v2) <==> v1[k].Some? && v2[k].Some? && v1[k].value.Finite? && v2[k].value.Finite?)
    ensures AllFinite(Differences(v1, v2))
    ensures Reals(Differences(v1, v2)) == KeptRealDifferences(v1, v2)
  {
    DifferencesAtKeptIndices(v1, v2, 0);
    KeptIndicesExact(v1, v2);
  }

  lemma MeanOfFinite(ds: seq<Num>, xs: seq<real>)
    requires AllFinite(ds) && Reals(ds) == xs && |ds| > 0
    ensures Div(Sum(ds), |ds| as real) == Finite(Mean(xs))
  {
    SumOfFinite(ds);
  }

  lemma VarianceOfFinite(ds: seq<Num>, xs: seq<real>)
    requires AllFinite(ds) && Reals(ds) == xs && |ds| >= 2
    ensures var avg := Div(Sum(ds), |ds| as real);
            Div(Sum(SquaredDeviations(ds, avg)), |ds| as real - 1.0) == Finite(SampleVariance(xs))
  {
    MeanOfFinite(ds, xs);
    var m := Mean(xs);
    var sq := SquaredDeviations(ds, Finite(m));
    SquaredDeviationsOfFinite(ds, xs, m);
    SumOfFinite(sq);
  }

  /** Squared deviations of finite values are the real squared deviations. */
  lemma SquaredDeviationsOfFinite(ds: seq<Num>, xs: seq<real>, m: real)
    requires AllFinite(ds) && Reals(ds) == xs
    ensures AllFinite(SquaredDeviations(ds, Finite(m)))
    ensures Reals(SquaredDeviations(ds, Finite(m))) == RealSquaredDeviations(xs, m)
  {
    var sq := SquaredDeviations(ds, Finite(m));
    var ys := RealSquaredDeviations(xs, m);
    forall i | 0 <= i < |ds|
      ensures sq[i] == Finite(ys[i])
    {
      SquaredDeviation(ds[i], m);
    }
    assert AllFinite(sq);
    assert |Reals(sq)| == |ys|;
    forall i | 0 <= i < |ys|
      ensures Reals(sq)[i] == ys[i]
    {
    }
  }

  lemma SquaredDeviation(d: Num, m: real)
    requires d.Finite?
    ensures Square(Sub(d, Finite(m))) == Finite((d.x - m) * (d.x - m))
  {
  }

  /** Swapping the two vectors negates the mean difference and leaves the
      spread and the count unchanged: the subtraction order matters. */
  lemma SwappedArguments(v1: seq<Option<Num>>, v2: seq<Option<Num>>)
    requires |v1| == |v2|
    ensures var m := AvgStdDev(v1, v2).value;
            AvgStdDev(v2, v1) == Success(Moments(Neg(m.avg), m.variance, m.n))
  {
    var ds := Differences(v1, v2);
    SwappedDifferences(v1, v2, 0);
    assert Differences(v2, v1) == Negated(ds);
    var n := |ds| as real;
    SumOfNegated(ds);
    DivOfNeg(Sum(ds), n);
    var avg := Div(Sum(ds), n);
    forall i | 0 <= i < |ds|
      ensures Square(Sub(Negated(ds)[i], Neg(avg))) == Square(Sub(ds[i], avg))
    {
      SubOfNegated(ds[i], avg);
      SquareOfNeg(Sub(ds[i], avg));
    }
    assert SquaredDeviations(Negated(ds), Neg(avg)) == SquaredDeviations(ds, avg);
  }

  lemma {:induction false} SwappedDifferences(v1: seq<Option<Num>>, v2: seq<Option<Num>>, i: nat)
    requires |v1| == |v2| && i <= |v1|
    ensures DifferencesFrom(v2, v1, i) == Negated(DifferencesFrom(v1, v2, i))
    decreases |v1| - i
  {
    if i < |v1| {
      SwappedDifferences(v1, v2, i + 1);
      if v1[i].Some? && v2[i].Some? {
        SubOfNegated(v1[i].value, v2[i].value);
      }
    }
  }

  /** Adds `c` to every present finite value. */
  function Shifted(v: seq<Option<Num>>, c: real): (r: seq<Option<Num>>)
    ensures |r| == |v|
  {
    seq(|v|, i requires 0 <= i < |v| =>
      match v[i]
      case Some(Finite(x)) => Some(Finite(x + c))
      case _ => v[i])
  }

  /** Adding the same constant to every value of both vectors changes nothing
      the differencer reports: mean, spread and count depend on differences only. */
  lemma ShiftInvariance(v1: seq<Option<Num>>, v2: seq<Option<Num>>, c: real)
    requires |v1| == |v2|
    ensures AvgStdDev(Shifted(v1, c), Shifted(v2, c)) == AvgStdDev(v1, v2)
  {
    ShiftedDifferences(v1, v2, c, 0);
  }

  lemma {:induction false} ShiftedDifferences(v1: seq<Option<Num>>, v2: seq<Option<Num>>, c: real, i: nat)
    requires |v1| == |v2| && i <= |v1|
    ensures DifferencesFrom(Shifted(v1, c), Shifted(v2, c), i) == DifferencesFrom(v1, v2, i)
    decreases |v1| - i
  {
    if i < |v1| {
      ShiftedDifferences(v1, v2, c, i + 1);
    }
  }
}
