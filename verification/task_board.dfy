/** The task board (components/Tasks.tsx): the filtered and date-ordered incident list, the pending
    workload per professional, and the registration panel toggle. */
module TaskBoard {
  import opened Wrappers
  import opened Seqs
  import opened Domain

  /** Which registration form the panel shows. */
  datatype RegTab = KitchenTab | IncidentTab

  /** One row of a workload table: a professional and their open incidents. */
  datatype Load = Load(name: string, count: nat)

  /** The status and completion filters: a selected status (none selects all) and, when
      `hideCompleted`, no Completed incident. */
  predicate Shown(i: Incident, selected: Option<Status>, hideCompleted: bool) {
    (selected.Some? ==> i.status == selected.value) && (hideCompleted ==> i.status != Completed)
  }

  /** Calendar order of installation dates (months have at most 31 days, years 12 months). */
  function DateOrdinal(d: Date): int {
    (d.year * 12 + d.month) * 32 + d.day
  }

  /** The sort key of an incident: its kitchen's installation date, 0 when the kitchen is unknown. */
  function InstallKey(kitchens: seq<Kitchen>, i: Incident): real {
    match FindKitchen(kitchens, i.kitchenId)
    case None => 0.0
    case Some(k) => DateOrdinal(k.installationDate) as real
  }

  /** `filteredIncidents`: exactly the incidents the filters show, reordered (stably) by the
      installation date of their kitchens. */
  function TaskView(incidents: seq<Incident>, kitchens: seq<Kitchen>, selected: Option<Status>, hideCompleted: bool): (r: seq<Incident>)
    ensures multiset(r) == multiset(Filter(incidents, (i: Incident) => Shown(i, selected, hideCompleted)))
    ensures forall j :: 0 <= j < |r| ==> Shown(r[j], selected, hideCompleted) && r[j] in incidents
    ensures forall j :: 0 <= j < |incidents| && Shown(incidents[j], selected, hideCompleted) ==> incidents[j] in r
    ensures SortedBy(r, (i: Incident) => InstallKey(kitchens, i))
  {
    var shown := Filter(incidents, (i: Incident) => Shown(i, selected, hideCompleted));
    var r := SortBy(shown, (i: Incident) => InstallKey(kitchens, i));
    PermutationMembers(r, shown);
    PermutationMembers(shown, r);
    r
  }

  /** When every listed incident's kitchen is known, an incident never precedes one whose kitchen is
      installed earlier. */
  lemma TaskViewOrderedByInstallation(incidents: seq<Incident>, kitchens: seq<Kitchen>, selected: Option<Status>, hideCompleted: bool)
    ensures var r := TaskView(incidents, kitchens, selected, hideCompleted);
      forall a, b :: 0 <= a < b < |r| && FindKitchen(kitchens, r[a].kitchenId).Some? && FindKitchen(kitchens, r[b].kitchenId).Some? ==>
        DateOrdinal(FindKitchen(kitchens, r[a].kitchenId).value.installationDate)
          <= DateOrdinal(FindKitchen(kitchens, r[b].kitchenId).value.installationDate)
  {
    var r := TaskView(incidents, kitchens, selected, hideCompleted);
    forall a, b | 0 <= a < b < |r| && FindKitchen(kitchens, r[a].kitchenId).Some? && FindKitchen(kitchens, r[b].kitchenId).Some?
      ensures DateOrdinal(FindKitchen(kitchens, r[a].kitchenId).value.installationDate)
                <= DateOrdinal(FindKitchen(kitchens, r[b].kitchenId).value.installationDate)
    {
      assert InstallKey(kitchens, r[a]) <= InstallKey(kitchens, r[b]);
    }
  }

  /** `pendingIncidents`: exactly the incidents that are not Completed, in order. */
  function PendingIncidents(incidents: seq<Incident>): (r: seq<Incident>)
    ensures IsSubsequence(r, incidents)
    ensures forall j :: 0 <= j < |r| ==> r[j].status != Completed
    ensures forall j :: 0 <= j < |incidents| && incidents[j].status != Completed ==> incidents[j] in r
  {
    Filter(incidents, (i: Incident) => IsActive(i))
  }

  /** The number of open incidents assigned to `name` in the role. */
  function OpenAssigned(pending: seq<Incident>, role: Role, name: string): (n: nat)
    ensures n <= |pending|
  {
    Count(pending, (i: Incident) => AssignedTo(i, role) == Some(name))
  }

  /** `SELLERS.map(...)` / `INSTALLERS.map(...)` before sorting: one row per roster name. */
  function LoadRows(roster: seq<string>, role: Role, pending: seq<Incident>): (r: seq<Load>)
    ensures |r| == |roster|
    ensures forall j :: 0 <= j < |roster| ==> r[j] == Load(roster[j], OpenAssigned(pending, role, roster[j]))
  {
    seq(|roster|, j requires 0 <= j < |roster| => Load(roster[j], OpenAssigned(pending, role, roster[j])))
  }

  function NegCount(l: Load): real {
    -(l.count as real)
  }

  /** `sellerLoad` / `installerLoad`: the roster rows reordered so that the busiest comes first. */
  function WorkLoad(role: Role, incidents: seq<Incident>): (r: seq<Load>)
    ensures |r| == |Roster(role)|
    ensures multiset(r) == multiset(LoadRows(Roster(role), role, PendingIncidents(incidents)))
    ensures forall a, b :: 0 <= a < b < |r| ==> r[a].count >= r[b].count
    ensures forall j :: 0 <= j < |r| ==> r[j].name in Roster(role)
    ensures forall j :: 0 <= j < |r| ==> r[j].count == OpenAssigned(PendingIncidents(incidents), role, r[j].name)
  {
    var rows := LoadRows(Roster(role), role, PendingIncidents(incidents));
    var r := SortBy(rows, NegCount);
    PermutationMembers(r, rows);
    forall a, b | 0 <= a < b < |r|
      ensures r[a].count >= r[b].count
    {
      assert NegCount(r[a]) <= NegCount(r[b]);
    }
    r
  }

  /** The kitchen ids of the open incidents (the "active kitchens" figure is its size). */
  function ActiveKitchenIds(incidents: seq<Incident>): (ids: set<string>)
    ensures forall id :: id in ids <==> exists j :: 0 <= j < |incidents| && incidents[j].status != Completed && incidents[j].kitchenId == id
  {
    var pending := PendingIncidents(incidents);
    var ids := set i | i in pending :: i.kitchenId;
    assert forall j :: 0 <= j < |incidents| && incidents[j].status != Completed ==> incidents[j].kitchenId in ids;
    ids
  }

  function KitchenIdsOf(s: seq<Incident>): set<string> {
    set i | i in s :: i.kitchenId
  }

  /** Distinct ids are never more than the incidents naming them. */
  lemma {:induction false} KitchenIdsOfBound(s: seq<Incident>)
    ensures |KitchenIdsOf(s)| <= |s|
  {
    if s != [] {
      KitchenIdsOfBound(s[1..]);
      assert KitchenIdsOf(s) == {s[0].kitchenId} + KitchenIdsOf(s[1..]) by {
        assert s == [s[0]] + s[1..];
      }
    }
  }

  /** The "active kitchens" figure never exceeds the number of open incidents. */
  lemma ActiveKitchensWithinPending(incidents: seq<Incident>)
    ensures |ActiveKitchenIds(incidents)| <= |PendingIncidents(incidents)|
  {
    KitchenIdsOfBound(PendingIncidents(incidents));
    assert ActiveKitchenIds(incidents) == KitchenIdsOf(PendingIncidents(incidents));
  }

  /** `toggleTab`: the same tab closes the panel, any other opens that tab. */
  function Toggled(prev: Option<RegTab>, tab: RegTab): (next: Option<RegTab>)
    ensures next == None <==> prev == Some(tab)
    ensures next != None ==> next == Some(tab)
  {
    if prev == Some(tab) then None else Some(tab)
  }

  /** The board's own state: the open registration form and the two list filters. */
  class Board {
    var activeRegTab: Option<RegTab>
    var selectedStatus: Option<Status>
    var hideCompleted: bool

    /** Panel closed, all statuses, completed incidents hidden. */
    constructor ()
      ensures activeRegTab == None && selectedStatus == None && hideCompleted
    {
      activeRegTab, selectedStatus, hideCompleted := None, None, true;
    }

    /** The incidents listed under the current filters. */
    function Listed(incidents: seq<Incident>, kitchens: seq<Kitchen>): (r: seq<Incident>)
      reads this
      ensures hideCompleted ==> forall j :: 0 <= j < |r| ==> r[j].status != Completed
    {
      TaskView(incidents, kitchens, selectedStatus, hideCompleted)
    }

    method ToggleTab(tab: RegTab)
      modifies this
      ensures activeRegTab == Toggled(old(activeRegTab), tab)
      ensures selectedStatus == old(selectedStatus) && hideCompleted == old(hideCompleted)
    {
      activeRegTab := Toggled(activeRegTab, tab);
    }

    method SelectStatus(s: Option<Status>)
      modifies this
      ensures selectedStatus == s
      ensures activeRegTab == old(activeRegTab) && hideCompleted == old(hideCompleted)
    {
      selectedStatus := s;
    }

    method ToggleHideCompleted()
      modifies this
      ensures hideCompleted == !old(hideCompleted)
      ensures activeRegTab == old(activeRegTab) && selectedStatus == old(selectedStatus)
    {
      hideCompleted := !hideCompleted;
    }
  }
}
