/** The dashboard's headline figures (components/Dashboard.tsx): how many kitchens have ever had an
    incident, how many have one still open, and the two ratios over all kitchens. */
module Dashboard {
  import opened Wrappers
  import opened Seqs
  import opened Domain

  /** The kitchen ids named by the incidents (only the non-Completed ones when `onlyActive`). */
  function AffectedIds(incidents: seq<Incident>, onlyActive: bool): (ids: set<string>)
    ensures forall j :: 0 <= j < |incidents| && (onlyActive ==> IsActive(incidents[j])) ==> incidents[j].kitchenId in ids
    ensures forall id :: id in ids ==>
              exists j :: 0 <= j < |incidents| && incidents[j].kitchenId == id && (onlyActive ==> IsActive(incidents[j]))
  {
    set i | i in incidents && (onlyActive ==> IsActive(i)) :: i.kitchenId
  }

  /** Some incident (an active one, when `onlyActive`) belongs to the kitchen. */
  predicate HasIncident(k: Kitchen, incidents: seq<Incident>, onlyActive: bool) {
    exists j :: 0 <= j < |incidents| && incidents[j].kitchenId == k.id && (onlyActive ==> IsActive(incidents[j]))
  }

  /** `historicalAffectedCount`: kitchens with at least one incident of any status. */
  function HistoricalAffectedCount(kitchens: seq<Kitchen>, incidents: seq<Incident>): (n: nat)
    ensures n <= |kitchens|
    ensures n == Count(kitchens, (k: Kitchen) => k.id in AffectedIds(incidents, false))
    ensures n == Count(kitchens, (k: Kitchen) => HasIncident(k, incidents, false))
  {
    var ids := AffectedIds(incidents, false);
    CountCongruent(kitchens, (k: Kitchen) => k.id in ids, (k: Kitchen) => HasIncident(k, incidents, false));
    Count(kitchens, (k: Kitchen) => k.id in ids)
  }

  /** `activeAffectedCount`: kitchens with at least one incident that is not Completed. */
  function ActiveAffectedCount(kitchens: seq<Kitchen>, incidents: seq<Incident>): (n: nat)
    ensures n <= |kitchens|
    ensures n == Count(kitchens, (k: Kitchen) => k.id in AffectedIds(incidents, true))
    ensures n == Count(kitchens, (k: Kitchen) => HasIncident(k, incidents, true))
  {
    var ids := AffectedIds(incidents, true);
    CountCongruent(kitchens, (k: Kitchen) => k.id in ids, (k: Kitchen) => HasIncident(k, incidents, true));
    Count(kitchens, (k: Kitchen) => k.id in ids)
  }

  /** Every kitchen with an open incident has a history, so it is counted in both figures. */
  lemma ActiveWithinHistorical(kitchens: seq<Kitchen>, incidents: seq<Incident>)
    ensures ActiveAffectedCount(kitchens, incidents) <= HistoricalAffectedCount(kitchens, incidents) <= |kitchens|
  {
    var active := AffectedIds(incidents, true);
    var all := AffectedIds(incidents, false);
    assert active <= all;
    CountMonotone(kitchens, (k: Kitchen) => k.id in active, (k: Kitchen) => k.id in all);
    CountCongruent(kitchens, (k: Kitchen) => k.id in active, (k: Kitchen) => k.id in AffectedIds(incidents, true));
    CountCongruent(kitchens, (k: Kitchen) => k.id in all, (k: Kitchen) => k.id in AffectedIds(incidents, false));
  }

  /** `historicalRatio`: affected kitchens over all kitchens, as a percentage; 0 without kitchens. */
  function HistoricalRatio(kitchens: seq<Kitchen>, incidents: seq<Incident>): (p: real)
    ensures |kitchens| == 0 ==> p == 0.0
    ensures 0.0 <= p <= 100.0
    ensures |kitchens| > 0 ==> p == (HistoricalAffectedCount(kitchens, incidents) as real / |kitchens| as real) * 100.0
  {
    var n := HistoricalAffectedCount(kitchens, incidents);
    Percentage(n, |kitchens|)
  }

  /** `pendingRatio`: kitchens with an open incident over all kitchens, as a percentage; 0 without
      kitchens. */
  function PendingRatio(kitchens: seq<Kitchen>, incidents: seq<Incident>): (p: real)
    ensures |kitchens| == 0 ==> p == 0.0
    ensures 0.0 <= p <= 100.0
    ensures |kitchens| > 0 ==> p == (ActiveAffectedCount(kitchens, incidents) as real / |kitchens| as real) * 100.0
  {
    var n := ActiveAffectedCount(kitchens, incidents);
    Percentage(n, |kitchens|)
  }

  /** The pending ratio never exceeds the historical one. */
  lemma PendingRatioWithinHistorical(kitchens: seq<Kitchen>, incidents: seq<Incident>)
    ensures PendingRatio(kitchens, incidents) <= HistoricalRatio(kitchens, incidents)
  {
    ActiveWithinHistorical(kitchens, incidents);
    PercentageMonotone(ActiveAffectedCount(kitchens, incidents), HistoricalAffectedCount(kitchens, incidents), |kitchens|);
  }

  /** The incidents handed to the cause chart: exactly those whose cause is not `Other`, in order. */
  function CauseChartInput(incidents: seq<Incident>): (r: seq<Incident>)
    ensures IsSubsequence(r, incidents)
    ensures forall j :: 0 <= j < |r| ==> r[j].cause != Other
    ensures forall j :: 0 <= j < |incidents| && incidents[j].cause != Other ==> incidents[j] in r
  {
    Filter(incidents, (i: Incident) => i.cause != Other)
  }

  function KitchenWithId(id: string): Kitchen {
    Kitchen(id, "30000001", id, "Cliente", "Lara", "Instalador A", Date(2025, 1, 15))
  }

  function IncidentOn(id: string, kitchenId: string, status: Status): Incident {
    Incident(id, kitchenId, "Fallo", "", Some([]), status, None, None, Other, Some(0), Some(0))
  }

  /** Four kitchens; `a` has an incident in progress, `b` only a completed one. */
  const SCENARIO_KITCHENS: seq<Kitchen> := [KitchenWithId("a"), KitchenWithId("b"), KitchenWithId("c"), KitchenWithId("d")]
  const SCENARIO_INCIDENTS: seq<Incident> := [IncidentOn("1", "a", InProgress), IncidentOn("2", "b", Completed)]

  lemma ScenarioAffectedIds()
    ensures AffectedIds(SCENARIO_INCIDENTS, true) == {"a"}
    ensures AffectedIds(SCENARIO_INCIDENTS, false) == {"a", "b"}
  {
    assert "a" in AffectedIds(SCENARIO_INCIDENTS, true);
    assert "b" in AffectedIds(SCENARIO_INCIDENTS, false);
  }

  /** One kitchen of four with an open incident: a pending ratio of 25 %, and two of four with any
      incident: a historical ratio of 50 %. */
  lemma PendingRatioScenario()
    ensures PendingRatio(SCENARIO_KITCHENS, SCENARIO_INCIDENTS) == 25.0
    ensures HistoricalRatio(SCENARIO_KITCHENS, SCENARIO_INCIDENTS) == 50.0
  {
    ScenarioCounts();
  }

  lemma ScenarioCounts()
    ensures ActiveAffectedCount(SCENARIO_KITCHENS, SCENARIO_INCIDENTS) == 1
    ensures HistoricalAffectedCount(SCENARIO_KITCHENS, SCENARIO_INCIDENTS) == 2
  {
    ScenarioAffectedIds();
    ScenarioFilter({"a"}, [KitchenWithId("a")]);
    ScenarioFilter({"a", "b"}, [KitchenWithId("a"), KitchenWithId("b")]);
  }

  /** Filtering the scenario kitchens by a set of ids, one kitchen at a time. */
  lemma ScenarioFilter(ids: set<string>, expected: seq<Kitchen>)
    requires ids == {"a"} || ids == {"a", "b"}
    requires expected == (if "b" in ids then [KitchenWithId("a"), KitchenWithId("b")] else [KitchenWithId("a")])
    ensures Count(SCENARIO_KITCHENS, (k: Kitchen) => k.id in ids) == |expected|
  {
    var p := (k: Kitchen) => k.id in ids;
    var s := SCENARIO_KITCHENS;
    assert !p(s[3]) && Filter(s[3..], p) == [];
    assert !p(s[2]) && Filter(s[2..], p) == [];
    assert Filter(s[1..], p) == expected[1..];
    assert Filter(s, p) == expected;
  }
}
