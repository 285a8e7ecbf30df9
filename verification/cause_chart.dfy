/** Per-cause counts and percentages behind the cause pie chart
    (components/IncidentCausePieChart.tsx). */
module CauseChart {
  import opened Seqs
  import opened Domain

  /** One slice: a cause, how many incidents it has, and its share of all incidents in percent. */
  datatype Slice = Slice(cause: Cause, count: nat, percentage: real)

  /** Number of incidents with the cause. */
  function CountOf(incidents: seq<Incident>, cause: Cause): (n: nat)
    ensures n <= |incidents|
  {
    Count(incidents, (i: Incident) => i.cause == cause)
  }

  /** The `reduce` over `INCIDENT_CAUSES` that fills the `incidentCounts` record one cause at a
      time: afterwards every cause has an entry holding its count. */
  method CountCauses(incidents: seq<Incident>) returns (counts: map<Cause, nat>)
    ensures forall c :: c in counts <==> c in INCIDENT_CAUSES
    ensures forall c :: c in counts ==> counts[c] == CountOf(incidents, c)
  {
    counts := map[];
    var k := 0;
    while k < |INCIDENT_CAUSES|
      invariant 0 <= k <= |INCIDENT_CAUSES|
      invariant forall c :: c in counts <==> c in INCIDENT_CAUSES[..k]
      invariant forall c :: c in counts ==> counts[c] == CountOf(incidents, c)
    {
      var cause := INCIDENT_CAUSES[k];
      counts := counts[cause := CountOf(incidents, cause)];
      assert INCIDENT_CAUSES[..k + 1] == INCIDENT_CAUSES[..k] + [cause];
      k := k + 1;
    }
    assert INCIDENT_CAUSES[..k] == INCIDENT_CAUSES;
  }

  /** Every incident has exactly one of the four causes, so the counts add up to the total. */
  lemma {:induction false} CauseCountsSumToTotal(incidents: seq<Incident>)
    ensures CountOf(incidents, SellerCause) + CountOf(incidents, InstallerCause)
            + CountOf(incidents, Logistics) + CountOf(incidents, Other) == |incidents|
  {
    if incidents != [] {
      CauseCountsSumToTotal(incidents[1..]);
    }
  }

  /** The slice of one cause, zero counts included. */
  function SliceOf(incidents: seq<Incident>, cause: Cause): Slice {
    var n := CountOf(incidents, cause);
    Slice(cause, n, Percentage(n, |incidents|))
  }

  /** All four slices in `INCIDENT_CAUSES` order. */
  function AllSlices(incidents: seq<Incident>): (r: seq<Slice>)
    ensures |r| == |INCIDENT_CAUSES|
    ensures forall j :: 0 <= j < |r| ==> r[j] == SliceOf(incidents, INCIDENT_CAUSES[j])
  {
    seq(|INCIDENT_CAUSES|, j requires 0 <= j < |INCIDENT_CAUSES| => SliceOf(incidents, INCIDENT_CAUSES[j]))
  }

  /** `chartData` (without geometry): nothing for no incidents; otherwise one slice per cause that
      occurs, in `INCIDENT_CAUSES` order, with its count and its percentage of all incidents. */
  function ChartData(incidents: seq<Incident>): (r: seq<Slice>)
    ensures |incidents| == 0 ==> r == []
    ensures IsSubsequence(r, AllSlices(incidents))
    ensures forall j :: 0 <= j < |r| ==> r[j].count == CountOf(incidents, r[j].cause) && r[j].count > 0
    ensures forall j :: 0 <= j < |r| ==> r[j].percentage == (r[j].count as real / |incidents| as real) * 100.0
    ensures forall c :: c in INCIDENT_CAUSES && CountOf(incidents, c) > 0 ==> SliceOf(incidents, c) in r
  {
    if |incidents| == 0 then []
    else Filter(AllSlices(incidents), (s: Slice) => s.count > 0)
  }

  /** Sum of the percentage column. */
  function PercentSum(slices: seq<Slice>): real {
    if slices == [] then 0.0 else slices[0].percentage + PercentSum(slices[1..])
  }

  /** Dropping empty slices, whose share is 0, leaves the total share unchanged. */
  lemma {:induction false} DropEmptyKeepsPercentSum(slices: seq<Slice>)
    requires forall j :: 0 <= j < |slices| && slices[j].count == 0 ==> slices[j].percentage == 0.0
    ensures PercentSum(Filter(slices, (s: Slice) => s.count > 0)) == PercentSum(slices)
  {
    if slices != [] {
      DropEmptyKeepsPercentSum(slices[1..]);
    }
  }

  /** The total share of four slices, written out. */
  lemma PercentSumOfFour(s: seq<Slice>)
    requires |s| == 4
    ensures PercentSum(s) == s[0].percentage + (s[1].percentage + (s[2].percentage + s[3].percentage))
  {
    assert PercentSum(s[3..]) == s[3].percentage;
    assert PercentSum(s[2..]) == s[2].percentage + s[3].percentage;
  }

  /** The four slices together cover every incident. */
  lemma AllSlicesSumTo100(incidents: seq<Incident>)
    requires |incidents| > 0
    ensures PercentSum(AllSlices(incidents)) == 100.0
  {
    var all := AllSlices(incidents);
    CauseCountsSumToTotal(incidents);
    PercentSumOfFour(all);
    PercentagesOfFourParts(all[0].count, all[1].count, all[2].count, all[3].count, |incidents|);
  }

  /** The slices of a non-empty chart make up the whole pie: their percentages sum to 100. */
  lemma ChartPercentagesSumTo100(incidents: seq<Incident>)
    requires |incidents| > 0
    ensures PercentSum(ChartData(incidents)) == 100.0
  {
    var all := AllSlices(incidents);
    assert ChartData(incidents) == Filter(all, (s: Slice) => s.count > 0);
    PercentageOfNothing(|incidents|);
    DropEmptyKeepsPercentSum(all);
    AllSlicesSumTo100(incidents);
  }

  /** A slice is labelled when its share exceeds 8 %: exactly when more than 2 incidents in 25 have
      its cause. */
  lemma LabelShownIffShareAbove8(incidents: seq<Incident>)
    ensures forall s :: s in ChartData(incidents) ==> (s.percentage > 8.0 <==> 25 * s.count > 2 * |incidents|)
  {
    forall s | s in ChartData(incidents)
      ensures s.percentage > 8.0 <==> 25 * s.count > 2 * |incidents|
    {
      assert s.percentage == Percentage(s.count, |incidents|);
      PercentageAbove8(s.count, |incidents|);
    }
  }
}
