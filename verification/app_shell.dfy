/** The App.tsx variant of the root component: raw loading that keeps the old data on a failed
    fetch, reload-after-successful-write handlers, and its own per-professional summaries. */
module AppShell {
  import opened Wrappers
  import opened Seqs
  import opened Domain
  import opened Scope
  import Loader

  /** A fetched row as App.tsx keeps it (no normalisation): only an already-decoded array is a history. */
  function AsReceived(row: Loader.RawIncident): (i: Incident)
    ensures i.id == row.id && i.kitchenId == row.kitchenId && i.observation == row.observation
    ensures i.history.Some? <==> row.history.RawArray?
    ensures row.history.RawArray? ==> Entries(i) == row.history.entries
    ensures i.status == row.status.GetOr(Pending)
  {
    Incident(row.id, row.kitchenId, row.description, row.observation,
      if row.history.RawArray? then Some(row.history.entries) else None,
      row.status.GetOr(Pending), row.assignedToSeller, row.assignedToInstaller, row.cause,
      row.createdAt, row.updatedAt)
  }

  /** The component's state. */
  class App {
    var kitchens: seq<Kitchen>
    var incidents: seq<Incident>
    var selectedMonth: Option<int>
    var selectedYear: Option<int>

    /** `currentYear` stands for `new Date().getFullYear()`. */
    constructor (currentYear: int)
      ensures kitchens == [] && incidents == []
      ensures selectedMonth == None && selectedYear == Some(currentYear)
    {
      kitchens, incidents := [], [];
      selectedMonth, selectedYear := None, Some(currentYear);
    }

    /** `loadAllData`: each collection is replaced only by a non-null answer; a failed fetch
        (`null`) leaves that collection as it was. */
    method LoadAllData(fetchedKitchens: Option<seq<Kitchen>>, fetchedRows: Option<seq<Loader.RawIncident>>)
      modifies this
      ensures kitchens == if fetchedKitchens.Some? then fetchedKitchens.value else old(kitchens)
      ensures fetchedRows.None? ==> incidents == old(incidents)
      ensures fetchedRows.Some? ==> |incidents| == |fetchedRows.value|
      ensures fetchedRows.Some? ==> forall j :: 0 <= j < |incidents| ==> incidents[j] == AsReceived(fetchedRows.value[j])
      ensures selectedMonth == old(selectedMonth) && selectedYear == old(selectedYear)
    {
      if fetchedKitchens.Some? {
        kitchens := fetchedKitchens.value;
      }
      if fetchedRows.Some? {
        var rows := fetchedRows.value;
        incidents := seq(|rows|, j requires 0 <= j < |rows| => AsReceived(rows[j]));
      }
    }

    /** The month and year selectors. */
    method SelectScope(month: Option<int>, year: Option<int>)
      modifies this
      ensures selectedMonth == month && selectedYear == year
      ensures kitchens == old(kitchens) && incidents == old(incidents)
    {
      selectedMonth, selectedYear := month, year;
    }

    /** `handleAddKitchen`/`handleAddIncident`/`handleUpdateIncident`: the data is reloaded only when
        the write answered with a non-null result. */
    method AfterWrite(writeResult: bool, fetchedKitchens: Option<seq<Kitchen>>, fetchedRows: Option<seq<Loader.RawIncident>>)
      returns (reloaded: bool)
      modifies this
      ensures reloaded == writeResult
      ensures !writeResult ==> kitchens == old(kitchens) && incidents == old(incidents)
      ensures writeResult ==> kitchens == if fetchedKitchens.Some? then fetchedKitchens.value else old(kitchens)
      ensures writeResult && fetchedRows.None? ==> incidents == old(incidents)
      ensures writeResult && fetchedRows.Some? ==> |incidents| == |fetchedRows.value|
      ensures writeResult && fetchedRows.Some? ==>
                forall j :: 0 <= j < |incidents| ==> incidents[j] == AsReceived(fetchedRows.value[j])
      ensures selectedMonth == old(selectedMonth) && selectedYear == old(selectedYear)
    {
      reloaded := writeResult;
      if writeResult {
        LoadAllData(fetchedKitchens, fetchedRows);
      }
    }
  }

  /** The record App.tsx's `handleAddIncident` posts: a generated id and each timestamp from its own
      clock read, then the draft's fields (its history stays an array). */
  function NewIncidentRecord(id: string, created: int, updated: int, d: IncidentDraft): (i: Incident)
    ensures i.id == id && i.createdAt == Some(created) && i.updatedAt == Some(updated)
    ensures Entries(i) == d.history && i.status == d.status && i.kitchenId == d.kitchenId
    ensures i.description == d.description && i.observation == d.observation && i.cause == d.cause
    ensures i.assignedToSeller == d.assignedToSeller && i.assignedToInstaller == d.assignedToInstaller
  {
    Incident(id, d.kitchenId, d.description, d.observation, Some(d.history), d.status,
      d.assignedToSeller, d.assignedToInstaller, d.cause, Some(created), Some(updated))
  }

  /** One row of `sellerSummary`/`installerSummary`. */
  function AppRow(name: string, role: Role, scoped: seq<Kitchen>, scopedIncidents: seq<Incident>): (s: Summary)
    ensures s.name == name
    ensures s.totalKitchens == |KitchensFor(scoped, role, name)|
    ensures s.incidents == Count(scopedIncidents, (i: Incident) =>
              AssignedTo(i, role) == Some(name) || (OwnsKitchen(scoped, role, name, i.kitchenId) && i.cause == CauseOf(role)))
    ensures s.incidencePercentage == Percentage(s.incidents, s.totalKitchens)
  {
    var ks := KitchensFor(scoped, role, name);
    var ids := KitchenIds(ks);
    OwnKitchenIds(scoped, role, name);
    CountCongruent(scopedIncidents, (i: Incident) => AttributedTo(i, role, name, ids), (i: Incident) =>
              AssignedTo(i, role) == Some(name) || (OwnsKitchen(scoped, role, name, i.kitchenId) && i.cause == CauseOf(role)));
    var n := Count(scopedIncidents, (i: Incident) => AttributedTo(i, role, name, ids));
    Summary(name, |ks|, n, Percentage(n, |ks|))
  }

  /** `sellerSummary` (`SELLERS`, seller role) and `installerSummary` (`INSTALLERS`, installer role):
      one row per roster name, in roster order; the percentage is 0 for a name without kitchens. */
  function AppSummary(roster: seq<string>, role: Role, scoped: seq<Kitchen>, scopedIncidents: seq<Incident>): (r: seq<Summary>)
    ensures |r| == |roster|
    ensures forall j :: 0 <= j < |roster| ==> r[j] == AppRow(roster[j], role, scoped, scopedIncidents)
    ensures forall j :: 0 <= j < |roster| && r[j].totalKitchens == 0 ==> r[j].incidencePercentage == 0.0
  {
    if roster == [] then []
    else [AppRow(roster[0], role, scoped, scopedIncidents)] + AppSummary(roster[1..], role, scoped, scopedIncidents)
  }

  /** Sum of the `totalKitchens` column. */
  function TotalKitchens(rows: seq<Summary>): nat {
    if rows == [] then 0 else rows[0].totalKitchens + TotalKitchens(rows[1..])
  }

  /** With distinct roster names, the kitchen column adds up to the number of scoped kitchens whose
      professional in that role is on the roster: every such kitchen is counted in exactly one row. */
  lemma {:induction false} SummaryTotalsPartitionKitchens(roster: seq<string>, role: Role, scoped: seq<Kitchen>, scopedIncidents: seq<Incident>)
    requires forall a, b :: 0 <= a < b < |roster| ==> roster[a] != roster[b]
    ensures TotalKitchens(AppSummary(roster, role, scoped, scopedIncidents))
      == Count(scoped, (k: Kitchen) => Professional(k, role) in roster)
  {
    if roster == [] {
      assert Filter(scoped, (k: Kitchen) => Professional(k, role) in roster) == [];
    } else {
      var rest := roster[1..];
      SummaryTotalsPartitionKitchens(rest, role, scoped, scopedIncidents);
      assert roster[0] !in rest;
      RosterSplit(roster, role, scoped);
      var rows := AppSummary(roster, role, scoped, scopedIncidents);
      assert rows[1..] == AppSummary(rest, role, scoped, scopedIncidents);
    }
  }

  /** The kitchens on a roster are those of its first name plus those of the others, when the first
      name does not recur. */
  lemma RosterSplit(roster: seq<string>, role: Role, scoped: seq<Kitchen>)
    requires roster != [] && roster[0] !in roster[1..]
    ensures Count(scoped, (k: Kitchen) => Professional(k, role) in roster)
      == |KitchensFor(scoped, role, roster[0])| + Count(scoped, (k: Kitchen) => Professional(k, role) in roster[1..])
  {
    var rest := roster[1..];
    var onRoster := (k: Kitchen) => Professional(k, role) in roster;
    var first := (k: Kitchen) => Professional(k, role) == roster[0];
    var onRest := (k: Kitchen) => Professional(k, role) in rest;
    assert forall k :: Professional(k, role) in roster <==> Professional(k, role) == roster[0] || Professional(k, role) in rest by {
      assert roster == [roster[0]] + rest;
    }
    CountDisjointUnion(scoped, first, onRest, onRoster);
    CountCongruent(scoped, first, (k: Kitchen) => Professional(k, role) == roster[0]);
  }

  /** The two summary implementations disagree, and in one direction only: every incident index.tsx's
      `getSummary` charges to a professional is also charged by App.tsx, so App.tsx's counts are never
      smaller. */
  lemma IndexCountNeverExceedsApp(name: string, role: Role, scoped: seq<Kitchen>, scopedIncidents: seq<Incident>)
    ensures Loader.IndexRow(name, role, scoped, scopedIncidents).incidents <= AppRow(name, role, scoped, scopedIncidents).incidents
  {
    var ids := KitchenIds(KitchensFor(scoped, role, name));
    CountMonotone(scopedIncidents,
      (i: Incident) => Loader.IndexCounts(i, role, name, ids),
      (i: Incident) => AttributedTo(i, role, name, ids));
  }

  /** The disagreement is real: an incident assigned to someone but blamed on another cause counts in
      App.tsx's row and not in `getSummary`'s. */
  lemma SummaryRulesDiffer(name: string, role: Role, scoped: seq<Kitchen>, inc: Incident)
    requires AssignedTo(inc, role) == Some(name) && inc.cause != CauseOf(role)
    ensures Loader.IndexRow(name, role, scoped, [inc]).incidents == 0
    ensures AppRow(name, role, scoped, [inc]).incidents == 1
  {
    var ids := KitchenIds(KitchensFor(scoped, role, name));
    assert Filter([inc], (i: Incident) => Loader.IndexCounts(i, role, name, ids)) == [];
    assert Filter([inc], (i: Incident) => AttributedTo(i, role, name, ids)) == [inc];
  }

  /** Three kitchens of one seller and one pending incident blamed on and assigned to that seller
      give one incident and a ratio of one in three. */
  lemma SellerRatioScenario(k1: Kitchen, k2: Kitchen, k3: Kitchen, inc: Incident)
    requires k1.seller == "Lara" && k2.seller == "Lara" && k3.seller == "Lara"
    requires inc.cause == SellerCause && inc.assignedToSeller == Some("Lara") && inc.status == Pending
    ensures var row := AppRow("Lara", SellerRole, [k1, k2, k3], [inc]);
      row.totalKitchens == 3 && row.incidents == 1 && row.incidencePercentage * 3.0 == 100.0
  {
    var ks := KitchensFor([k1, k2, k3], SellerRole, "Lara");
    assert [k1, k2, k3][1..] == [k2, k3];
    assert [k2, k3][1..] == [k3];
    assert |ks| == 3;
  }
}
