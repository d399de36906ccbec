/** Input rows and `records_to_data`, which feeds every row's volumes of each
    ROI to that ROI's accumulator in one order-preserving pass.

    The source's single loop interleaves three `add_vol` calls per row; as the
    three accumulators share no state, this is modelled as three independent
    folds over the rows. */
module Records {
  import opened Numbers
  import opened Outcomes
  import opened Accumulator

  /** One row of the input table: a patient id and, for each of the three
      ROIs, an optional volume per phase. */
  datatype Record = Record(
    patientId: string,
    gtvPhase1: Option<Num>, gtvPhase2: Option<Num>, gtvPhase3: Option<Num>,
    gtvNPhase1: Option<Num>, gtvNPhase2: Option<Num>, gtvNPhase3: Option<Num>,
    ptvDpPhase1: Option<Num>, ptvDpPhase2: Option<Num>, ptvDpPhase3: Option<Num>)

  /** The three regions of interest, in the order `records_to_data` lists them. */
  datatype Roi = Gtv | GtvN | PtvDp {
    function Name(): (name: string) {
      match this
      case Gtv => "GTV"
      case GtvN => "GTV_N"
      case PtvDp => "PTV_DP"
    }
  }

  const Rois: seq<Roi> := [Gtv, GtvN, PtvDp]

  /** The three phase volumes of one ROI in one row. */
  datatype Triple = Triple(phase1: Option<Num>, phase2: Option<Num>, phase3: Option<Num>)

  function VolumesOf(r: Record, roi: Roi): (t: Triple) {
    match roi
    case Gtv => Triple(r.gtvPhase1, r.gtvPhase2, r.gtvPhase3)
    case GtvN => Triple(r.gtvNPhase1, r.gtvNPhase2, r.gtvNPhase3)
    case PtvDp => Triple(r.ptvDpPhase1, r.ptvDpPhase2, r.ptvDpPhase3)
  }

  /** `add_vol` of one ROI's volumes of every row, first row first. */
  function Accumulate(d: Data, records: seq<Record>, roi: Roi): (r: Data)
    ensures r.roiName == d.roiName
    ensures Valid(d) ==> Valid(r)
    ensures |r.volPhase1| <= |d.volPhase1| + |records|
    decreases |records|
  {
    if |records| == 0 then d
    else
      var t := VolumesOf(records[|records| - 1], roi);
      AddVol(Accumulate(d, records[..|records| - 1], roi), t.phase1, t.phase2, t.phase3)
  }

  /** The ROI's triples that `add_vol` admits, in row order. */
  function AdmittedTriples(records: seq<Record>, roi: Roi): (ts: seq<Triple>)
    decreases |records|
  {
    if |records| == 0 then []
    else
      var t := VolumesOf(records[|records| - 1], roi);
      AdmittedTriples(records[..|records| - 1], roi)
        + (if Admissible(t.phase1, t.phase2, t.phase3) then [t] else [])
  }

  function Phase1Column(ts: seq<Triple>): (r: seq<Option<Num>>)
    ensures |r| == |ts| && forall i :: 0 <= i < |ts| ==> r[i] == ts[i].phase1
  {
    seq(|ts|, i requires 0 <= i < |ts| => ts[i].phase1)
  }

  function Phase2Column(ts: seq<Triple>): (r: seq<Option<Num>>)
    ensures |r| == |ts| && forall i :: 0 <= i < |ts| ==> r[i] == ts[i].phase2
  {
    seq(|ts|, i requires 0 <= i < |ts| => ts[i].phase2)
  }

  function Phase3Column(ts: seq<Triple>): (r: seq<Option<Num>>)
    ensures |r| == |ts| && forall i :: 0 <= i < |ts| ==> r[i] == ts[i].phase3
  {
    seq(|ts|, i requires 0 <= i < |ts| => ts[i].phase3)
  }

  /** Accumulating appends, phase by phase, exactly the admissible triples of
      the ROI in row order, and nothing else. */
  lemma {:induction false} AccumulateAppendsAdmitted(d: Data, records: seq<Record>, roi: Roi)
    ensures var a := Accumulate(d, records, roi);
            var ts := AdmittedTriples(records, roi);
            && a.roiName == d.roiName
            && a.volPhase1 == d.volPhase1 + Phase1Column(ts)
            && a.volPhase2 == d.volPhase2 + Phase2Column(ts)
            && a.volPhase3 == d.volPhase3 + Phase3Column(ts)
    decreases |records|
  {
    if |records| == 0 {
      assert Phase1Column([]) == [] && Phase2Column([]) == [] && Phase3Column([]) == [];
    } else {
      var prefix := records[..|records| - 1];
      AccumulateAppendsAdmitted(d, prefix, roi);
      var t := VolumesOf(records[|records| - 1], roi);
      var ts := AdmittedTriples(prefix, roi);
      if Admissible(t.phase1, t.phase2, t.phase3) {
        ColumnsOfAppend(ts, t);
      } else {
        assert ts + [] == ts;
      }
    }
  }

  lemma ColumnsOfAppend(ts: seq<Triple>, t: Triple)
    ensures Phase1Column(ts + [t]) == Phase1Column(ts) + [t.phase1]
    ensures Phase2Column(ts + [t]) == Phase2Column(ts) + [t.phase2]
    ensures Phase3Column(ts + [t]) == Phase3Column(ts) + [t.phase3]
  {
  }

  /** An accumulator depends only on its own ROI's volumes: a row missing a
      GTV volume still contributes to GTV_N, and rows that agree on a ROI's
      volumes build the same accumulator for it. */
  lemma {:induction false} AccumulateSeesOnlyItsRoi(d: Data, rs1: seq<Record>, rs2: seq<Record>, roi: Roi)
    requires |rs1| == |rs2|
    requires forall i :: 0 <= i < |rs1| ==> VolumesOf(rs1[i], roi) == VolumesOf(rs2[i], roi)
    ensures Accumulate(d, rs1, roi) == Accumulate(d, rs2, roi)
    decreases |rs1|
  {
    if |rs1| > 0 {
      AccumulateSeesOnlyItsRoi(d, rs1[..|rs1| - 1], rs2[..|rs2| - 1], roi);
    }
  }

  /** `records_to_data`: the GTV, GTV_N and PTV_DP accumulators, in that
      order, each holding exactly its admissible triples in row order. */
  function RecordsToData(records: seq<Record>): (ds: seq<Data>)
    ensures |ds| == 3
    ensures ds[0].roiName == "GTV" && ds[1].roiName == "GTV_N" && ds[2].roiName == "PTV_DP"
    ensures forall k :: 0 <= k < 3 ==> ds[k].roiName == Rois[k].Name() && Valid(ds[k])
    ensures forall k :: 0 <= k < 3 ==>
      var ts := AdmittedTriples(records, Rois[k]);
      && ds[k].volPhase1 == Phase1Column(ts)
      && ds[k].volPhase2 == Phase2Column(ts)
      && ds[k].volPhase3 == Phase3Column(ts)
  {
    assert Rois[0] == Gtv && Rois[1] == GtvN && Rois[2] == PtvDp;
    [RoiData(records, Gtv), RoiData(records, GtvN), RoiData(records, PtvDp)]
  }

  /** One ROI's accumulator: a new one named after the ROI, fed every row. */
  function RoiData(records: seq<Record>, roi: Roi): (d: Data)
    ensures d.roiName == roi.Name() && Valid(d)
    ensures var ts := AdmittedTriples(records, roi);
            && d.volPhase1 == Phase1Column(ts)
            && d.volPhase2 == Phase2Column(ts)
            && d.volPhase3 == Phase3Column(ts)
  {
    AccumulateFromEmpty(roi.Name(), records, roi);
    Accumulate(NewData(roi.Name()), records, roi)
  }

  lemma AccumulateFromEmpty(name: string, records: seq<Record>, roi: Roi)
    ensures var d := Accumulate(NewData(name), records, roi);
            var ts := AdmittedTriples(records, roi);
            && d.roiName == name
            && d.volPhase1 == Phase1Column(ts)
            && d.volPhase2 == Phase2Column(ts)
            && d.volPhase3 == Phase3Column(ts)
  {
    var empty := NewData(name);
    AccumulateAppendsAdmitted(empty, records, roi);
    var ts := AdmittedTriples(records, roi);
    EmptyPrefix(Phase1Column(ts));
    EmptyPrefix(Phase2Column(ts));
    EmptyPrefix(Phase3Column(ts));
  }

  lemma EmptyPrefix(s: seq<Option<Num>>)
    ensures [] + s == s
  {
  }
}
