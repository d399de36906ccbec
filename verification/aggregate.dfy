/** `add_data` and `dataset_to_stats`: two rows per accumulator, in dataset
    order, stopping at the first error, then sorted by identity. */
module Aggregate {
  import opened Numbers
  import opened Outcomes
  import opened Stats
  import opened Sorting
  import opened Accumulator
  import opened Records

  /** Both statistics of `d` can be computed: its phase vectors pair up. */
  predicate StatsDefined(d: Data) {
    |d.volPhase1| == |d.volPhase2| && |d.volPhase2| == |d.volPhase3|
  }

  /** The error that computing the statistics of `d` meets first: the
      1 to 2 statistic is computed before the 2 to 3 one. */
  function FirstStatError(d: Data): (e: Error)
    requires !StatsDefined(d)
  {
    if |d.volPhase1| != |d.volPhase2| then LengthMismatch(|d.volPhase1|, |d.volPhase2|)
    else LengthMismatch(|d.volPhase2|, |d.volPhase3|)
  }

  /** `ds[k]` is the first accumulator whose statistics fail. */
  predicate FirstFailing(ds: seq<Data>, k: int) {
    && 0 <= k < |ds|
    && !StatsDefined(ds[k])
    && forall i :: 0 <= i < k ==> StatsDefined(ds[i])
  }

  /** `add_data`: appends the 1 to 2 and then the 2 to 3 statistic of `d`. */
  function AddData(stats: seq<Stat>, d: Data): (r: Result<seq<Stat>>)
    ensures r.Success? <==> StatsDefined(d)
    ensures r.Failure? ==> r.error == FirstStatError(d)
    ensures r.Success? ==>
      r.value == stats + [Phase1To2Stat(d).value, Phase2To3Stat(d).value]
  {
    var s12 :- Phase1To2Stat(d);
    var s23 :- Phase2To3Stat(d);
    Success(stats + [s12, s23])
  }

  /** The loop of `dataset_to_stats` before the sort: two rows per
      accumulator, in dataset order, or the first error met. */
  function CollectStats(ds: seq<Data>): (r: Result<seq<Stat>>)
    ensures r.Success? <==> AllStatsDefined(ds)
    ensures r.Failure? ==> exists k :: FirstFailing(ds, k) && r.error == FirstStatError(ds[k])
    ensures r.Success? ==> r.value == StatRows(ds)
    decreases |ds|
  {
    if |ds| == 0 then Success([])
    else
      var prefix, last := ds[..|ds| - 1], ds[|ds| - 1];
      match CollectStats(prefix)
      case Failure(e) =>
        var k :| FirstFailing(prefix, k) && e == FirstStatError(prefix[k]);
        FirstFailingInLonger(ds, k);
        Failure(e)
      case Success(prev) =>
        DefinedPrefix(ds);
        if StatsDefined(last) then
          assert StatRows(ds) == prev + [Phase1To2Stat(last).value, Phase2To3Stat(last).value];
          AddData(prev, last)
        else
          AddData(prev, last)
  }

  predicate AllStatsDefined(ds: seq<Data>) {
    forall i :: 0 <= i < |ds| ==> StatsDefined(ds[i])
  }

  /** How the statistics of `ds` fare follows from its prefix and its last element. */
  lemma DefinedPrefix(ds: seq<Data>)
    requires |ds| > 0 && AllStatsDefined(ds[..|ds| - 1])
    ensures AllStatsDefined(ds) <==> StatsDefined(ds[|ds| - 1])
    ensures !StatsDefined(ds[|ds| - 1]) ==> FirstFailing(ds, |ds| - 1)
  {
    assert forall i :: 0 <= i < |ds| - 1 ==> ds[..|ds| - 1][i] == ds[i];
  }

  lemma FirstFailingInLonger(ds: seq<Data>, k: int)
    requires |ds| > 0 && FirstFailing(ds[..|ds| - 1], k)
    ensures FirstFailing(ds, k) && !AllStatsDefined(ds)
    ensures ds[..|ds| - 1][k] == ds[k]
  {
    assert forall i :: 0 <= i < |ds| - 1 ==> ds[..|ds| - 1][i] == ds[i];
  }

  /** The rows the loop appends, in order, when no statistic fails. */
  function StatRows(ds: seq<Data>): (r: seq<Stat>)
    requires AllStatsDefined(ds)
    ensures |r| == 2 * |ds|
    decreases |ds|
  {
    if |ds| == 0 then []
    else
      var last := ds[|ds| - 1];
      assert AllStatsDefined(ds[..|ds| - 1]);
      StatRows(ds[..|ds| - 1]) + [Phase1To2Stat(last).value, Phase2To3Stat(last).value]
  }

  /** Rows `2i` and `2i + 1` are the 1 to 2 and 2 to 3 statistics of `ds[i]`. */
  lemma {:induction false} StatRowsAt(ds: seq<Data>, i: nat)
    requires AllStatsDefined(ds) && i < |ds|
    ensures StatRows(ds)[2 * i] == Phase1To2Stat(ds[i]).value
    ensures StatRows(ds)[2 * i + 1] == Phase2To3Stat(ds[i]).value
    decreases |ds|
  {
    var prefix := ds[..|ds| - 1];
    assert AllStatsDefined(prefix);
    if i < |ds| - 1 {
      StatRowsAt(prefix, i);
      assert prefix[i] == ds[i];
    }
  }

  lemma RowIdentityAt(ds: seq<Data>, i: nat)
    requires AllStatsDefined(ds) && i < |ds|
    ensures Identity(StatRows(ds)[2 * i]) == (ds[i].roiName, 1, 2)
    ensures Identity(StatRows(ds)[2 * i + 1]) == (ds[i].roiName, 2, 3)
  {
    StatRowsAt(ds, i);
    var d := ds[i];
    assert StatsDefined(d);
    var a, b := Phase1To2Stat(d), Phase2To3Stat(d);
    assert a.Success? && b.Success?;
  }

  /** `dataset_to_stats`. */
  function DatasetToStats(ds: seq<Data>): (r: Result<seq<Stat>>)
    ensures r.Success? <==> AllStatsDefined(ds)
    ensures r.Failure? ==> exists k :: FirstFailing(ds, k) && r.error == FirstStatError(ds[k])
    ensures r.Success? ==>
      && |r.value| == 2 * |ds|
      && Sorted(r.value)
      && multiset(r.value) == multiset(StatRows(ds))
  {
    var v :- CollectStats(ds);
    Success(SortStats(v))
  }

  /** Every accumulator's two statistics are in the output. */
  lemma OutputHoldsEveryStat(ds: seq<Data>, i: nat)
    requires AllStatsDefined(ds) && i < |ds|
    ensures Phase1To2Stat(ds[i]).value in DatasetToStats(ds).value
    ensures Phase2To3Stat(ds[i]).value in DatasetToStats(ds).value
  {
    var v := StatRows(ds);
    var r := DatasetToStats(ds).value;
    StatRowsAt(ds, i);
    assert v[2 * i] in multiset(v) && v[2 * i + 1] in multiset(v);
    assert v[2 * i] in multiset(r) && v[2 * i + 1] in multiset(r);
  }

  /** Accumulators built through `new`, `add_vol` and `clear` never fail. */
  lemma ValidDataNeverFails(ds: seq<Data>)
    requires forall i :: 0 <= i < |ds| ==> Valid(ds[i])
    ensures DatasetToStats(ds).Success?
  {
  }

  function Identity(s: Stat): (id: (string, int, int)) {
    (s.roiName, s.phaseStart, s.phaseEnd)
  }

  function Identities(s: seq<Stat>): (r: seq<(string, int, int)>)
    ensures |r| == |s| && forall i :: 0 <= i < |s| ==> r[i] == Identity(s[i])
  {
    seq(|s|, i requires 0 <= i < |s| => Identity(s[i]))
  }

  /** The identities of the rows `dataset_to_stats` produces for the three ROIs. */
  const PipelineIdentities: seq<(string, int, int)> := [
    ("GTV", 1, 2), ("GTV", 2, 3),
    ("GTV_N", 1, 2), ("GTV_N", 2, 3),
    ("PTV_DP", 1, 2), ("PTV_DP", 2, 3)]

  /** The whole pipeline never fails and always yields six rows, GTV before
      GTV_N before PTV_DP and 1 to 2 before 2 to 3 within a ROI. They are the
      rows in the order the loop produced them: the sort finds them in order. */
  lemma PipelineOutput(records: seq<Record>)
    ensures var r := DatasetToStats(RecordsToData(records));
            && r.Success?
            && r.value == StatRows(RecordsToData(records))
            && Identities(r.value) == PipelineIdentities
  {
    var ds := RecordsToData(records);
    assert AllStatsDefined(ds);
    var v := StatRows(ds);
    RowIdentities(ds);
    IdentityOrderIsSorted(v);
    SortStatsOfSorted(v);
  }

  lemma RowIdentities(ds: seq<Data>)
    requires |ds| == 3 && AllStatsDefined(ds)
    requires ds[0].roiName == "GTV" && ds[1].roiName == "GTV_N" && ds[2].roiName == "PTV_DP"
    ensures Identities(StatRows(ds)) == PipelineIdentities
  {
    RowIdentityAt(ds, 0);
    RowIdentityAt(ds, 1);
    RowIdentityAt(ds, 2);
    SixIdentities(StatRows(ds));
  }

  lemma SixIdentities(v: seq<Stat>)
    requires |v| == 6
    requires Identity(v[0]) == ("GTV", 1, 2) && Identity(v[1]) == ("GTV", 2, 3)
    requires Identity(v[2]) == ("GTV_N", 1, 2) && Identity(v[3]) == ("GTV_N", 2, 3)
    requires Identity(v[4]) == ("PTV_DP", 1, 2) && Identity(v[5]) == ("PTV_DP", 2, 3)
    ensures Identities(v) == PipelineIdentities
  {
  }

  /** Rows with these identities, in this order, are sorted. */
  lemma IdentityOrderIsSorted(v: seq<Stat>)
    requires Identities(v) == PipelineIdentities
    ensures Sorted(v)
  {
    assert |v| == 6;
    assert Identity(v[0]) == ("GTV", 1, 2) && Identity(v[1]) == ("GTV", 2, 3);
    assert Identity(v[2]) == ("GTV_N", 1, 2) && Identity(v[3]) == ("GTV_N", 2, 3);
    assert Identity(v[4]) == ("PTV_DP", 1, 2) && Identity(v[5]) == ("PTV_DP", 2, 3);
    PipelineOrderAdjacent(v);
    SortedFromAdjacent(v);
  }

  lemma PipelineOrderAdjacent(v: seq<Stat>)
    requires |v| == 6
    requires Identity(v[0]) == ("GTV", 1, 2) && Identity(v[1]) == ("GTV", 2, 3)
    requires Identity(v[2]) == ("GTV_N", 1, 2) && Identity(v[3]) == ("GTV_N", 2, 3)
    requires Identity(v[4]) == ("PTV_DP", 1, 2) && Identity(v[5]) == ("PTV_DP", 2, 3)
    ensures forall i :: 0 <= i < |v| - 1 ==> Le(v[i], v[i + 1])
  {
    RoiNamesOrdered();
    assert Le(v[0], v[1]) && Le(v[1], v[2]) && Le(v[2], v[3]) && Le(v[3], v[4]) && Le(v[4], v[5]);
  }

  /** Under a transitive order, sorted adjacent pairs make a sorted sequence. */
  lemma SortedFromAdjacent(v: seq<Stat>)
    requires forall i :: 0 <= i < |v| - 1 ==> Le(v[i], v[i + 1])
    ensures Sorted(v)
  {
    LeFacts();
    forall i, j | 0 <= i < j < |v|
      ensures Le(v[i], v[j])
    {
      var k := i;
      while k < j
        invariant i <= k <= j && Le(v[i], v[k])
      {
        k := k + 1;
      }
    }
  }

  /** "GTV" < "GTV_N" < "PTV_DP" as Rust strings. */
  lemma RoiNamesOrdered()
    ensures CompareStrings("GTV", "GTV_N") == Less
    ensures CompareStrings("GTV", "PTV_DP") == Less
    ensures CompareStrings("GTV_N", "PTV_DP") == Less
    ensures CompareStrings("GTV", "GTV") == Equal
    ensures CompareStrings("GTV_N", "GTV_N") == Equal
    ensures CompareStrings("PTV_DP", "PTV_DP") == Equal
  {
    CompareStringsEqual("GTV", "GTV");
    CompareStringsEqual("GTV_N", "GTV_N");
    CompareStringsEqual("PTV_DP", "PTV_DP");
  }
}
