/** Average resolution time per professional (components/ResolutionSpeedAnalysis.tsx). Timestamps
    are milliseconds; an average is in days. */
module ResolutionSpeed {
  import opened Wrappers
  import opened Seqs
  import opened Domain

  /** Milliseconds in a day (`1000 * 60 * 60 * 24`). */
  const MS_PER_DAY: int := 86_400_000

  /** One bar of the chart: a professional and their average resolution time in days. */
  datatype SpeedRow = SpeedRow(name: string, avgDays: real)

  predicate IsResolved(i: Incident) {
    i.status == Completed && i.createdAt.Some? && i.updatedAt.Some?
  }

  /** `completedIncidents`: the Completed incidents that carry both timestamps, in order. */
  function CompletedIncidents(incidents: seq<Incident>): (r: seq<Incident>)
    ensures IsSubsequence(r, incidents)
    ensures forall j :: 0 <= j < |r| ==> IsResolved(r[j])
    ensures forall j :: 0 <= j < |incidents| && IsResolved(incidents[j]) ==> incidents[j] in r
  {
    Filter(incidents, IsResolved)
  }

  /** Time from creation to the last update, in milliseconds (0 without both timestamps). */
  function Duration(i: Incident): int {
    if i.createdAt.Some? && i.updatedAt.Some? then i.updatedAt.value - i.createdAt.value else 0
  }

  function Durations(list: seq<Incident>): (d: seq<int>)
    ensures |d| == |list|
    ensures forall j :: 0 <= j < |list| ==> d[j] == Duration(list[j])
  {
    seq(|list|, j requires 0 <= j < |list| => Duration(list[j]))
  }

  /** The resolved incidents assigned to `name` in the role. */
  function ResolvedBy(completed: seq<Incident>, role: Role, name: string): (r: seq<Incident>)
    ensures forall j :: 0 <= j < |r| ==> r[j] in completed && AssignedTo(r[j], role) == Some(name)
    ensures forall j :: 0 <= j < |completed| && AssignedTo(completed[j], role) == Some(name) ==> completed[j] in r
  {
    Filter(completed, (i: Incident) => AssignedTo(i, role) == Some(name))
  }

  /** A total of `n` durations in milliseconds, as a mean in days. */
  function MeanDays(totalMs: int, n: nat): (d: real)
    requires n > 0
    ensures d * (n as real) * (MS_PER_DAY as real) == totalMs as real
    ensures totalMs >= 0 ==> d >= 0.0
  {
    (totalMs as real / n as real) / (MS_PER_DAY as real)
  }

  /** `getAverageTime`: absent when nothing assigned to `name` was resolved; otherwise the mean
      duration of those incidents, in days. */
  function AverageDays(completed: seq<Incident>, role: Role, name: string): (avg: Option<real>)
    ensures avg.None? <==> ResolvedBy(completed, role, name) == []
    ensures avg.Some? ==> avg.value == MeanDays(Sum(Durations(ResolvedBy(completed, role, name))), |ResolvedBy(completed, role, name)|)
  {
    var list := ResolvedBy(completed, role, name);
    if |list| == 0 then None
    else Some(MeanDays(Sum(Durations(list)), |list|))
  }

  /** A sum of non-negative numbers is non-negative. */
  lemma {:induction false} SumNonNegative(s: seq<int>)
    requires forall j :: 0 <= j < |s| ==> s[j] >= 0
    ensures Sum(s) >= 0
  {
    if s != [] {
      SumNonNegative(s[1..]);
    }
  }

  /** Incidents are never updated before they are created, so averages are never negative. */
  lemma AverageNonNegative(completed: seq<Incident>, role: Role, name: string)
    requires forall j :: 0 <= j < |completed| ==> Duration(completed[j]) >= 0
    ensures AverageDays(completed, role, name).Some? ==> AverageDays(completed, role, name).value >= 0.0
  {
    var list := ResolvedBy(completed, role, name);
    SumNonNegative(Durations(list));
  }

  function AvgKey(r: SpeedRow): real {
    r.avgDays
  }

  /** The professionals named by the rows. */
  function NamesOf(rows: seq<SpeedRow>): set<string> {
    set r | r in rows :: r.name
  }

  /** `roster.map(name => ({ name, avgDays })).filter(s => s.avgDays !== null)`, in roster order:
      exactly the roster names that have an average, each with it. */
  function AveragedRows(roster: seq<string>, role: Role, completed: seq<Incident>): (rows: seq<SpeedRow>)
    ensures forall j :: 0 <= j < |rows| ==>
              rows[j].name in roster && AverageDays(completed, role, rows[j].name) == Some(rows[j].avgDays)
    ensures forall n :: n in NamesOf(rows) <==> n in roster && AverageDays(completed, role, n).Some?
  {
    if roster == [] then []
    else
      var rest := AveragedRows(roster[1..], role, completed);
      assert forall n :: n in roster <==> n == roster[0] || n in roster[1..];
      match AverageDays(completed, role, roster[0])
      case None => rest
      case Some(a) =>
        var rows := [SpeedRow(roster[0], a)] + rest;
        assert NamesOf(rows) == {roster[0]} + NamesOf(rest);
        rows
  }

  /** `sellerStats` / `installerStats`: exactly the roster names that have an average, each with
      it, fastest first. */
  function SpeedStats(role: Role, incidents: seq<Incident>): (r: seq<SpeedRow>)
    ensures forall j :: 0 <= j < |r| ==>
              r[j].name in Roster(role) && AverageDays(CompletedIncidents(incidents), role, r[j].name) == Some(r[j].avgDays)
    ensures forall n :: n in NamesOf(r) <==> n in Roster(role) && AverageDays(CompletedIncidents(incidents), role, n).Some?
    ensures forall a, b :: 0 <= a < b < |r| ==> r[a].avgDays <= r[b].avgDays
    ensures multiset(r) == multiset(AveragedRows(Roster(role), role, CompletedIncidents(incidents)))
  {
    var rows := AveragedRows(Roster(role), role, CompletedIncidents(incidents));
    SortedRows(rows);
    SortBy(rows, AvgKey)
  }

  /** Sorting the rows rearranges them (keeping each row and each name) and orders them by average. */
  lemma SortedRows(rows: seq<SpeedRow>)
    ensures var r := SortBy(rows, AvgKey);
      && multiset(r) == multiset(rows)
      && (forall j :: 0 <= j < |r| ==> r[j] in rows)
      && NamesOf(r) == NamesOf(rows)
      && (forall a, b :: 0 <= a < b < |r| ==> r[a].avgDays <= r[b].avgDays)
  {
    var r := SortBy(rows, AvgKey);
    PermutationMembers(r, rows);
    PermutationMembers(rows, r);
    assert forall a, b :: 0 <= a < b < |r| ==> AvgKey(r[a]) <= AvgKey(r[b]);
  }

  /** The bar width in percent: ten per day, capped at 100. */
  function BarWidth(avgDays: real): (w: real)
    ensures w <= 100.0
    ensures avgDays >= 0.0 ==> w >= 0.0
    ensures avgDays * 10.0 <= 100.0 ==> w == avgDays * 10.0
    ensures avgDays * 10.0 > 100.0 ==> w == 100.0
  {
    if avgDays * 10.0 < 100.0 then avgDays * 10.0 else 100.0
  }

  /** 2025-01-01T00:00:00Z and 2025-01-03T00:00:00Z in milliseconds since the epoch. */
  const JAN_1_2025: int := 1_735_689_600_000
  const JAN_3_2025: int := 1_735_862_400_000

  function ScenarioIncident(): Incident {
    Incident("1", "k1", "Fallo", "", Some([]), Completed, None, Some("Instalador A"), InstallerCause,
             Some(JAN_1_2025), Some(JAN_3_2025))
  }

  /** One incident resolved in two days by "Instalador A": a single bar of 2.0 days, and no bar for
      the installers with nothing resolved. */
  lemma ResolutionSpeedScenario()
    ensures SpeedStats(InstallerRole, [ScenarioIncident()]) == [SpeedRow("Instalador A", 2.0)]
  {
    var xs := [ScenarioIncident()];
    var completed := CompletedIncidents(xs);
    assert completed == xs;
    assert ResolvedBy(completed, InstallerRole, "Instalador A") == xs;
    assert Sum(Durations(xs)) == 2 * MS_PER_DAY;
    assert AverageDays(completed, InstallerRole, "Instalador A") == Some(2.0);
    assert ResolvedBy(completed, InstallerRole, "Instalador B") == [];
    assert ResolvedBy(completed, InstallerRole, "Instalador C") == [];
    assert ResolvedBy(completed, InstallerRole, "Instalador D") == [];
  }
}
