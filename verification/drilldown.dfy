/** The drill-down for one seller or installer (components/FilteredListModal.tsx): their kitchens,
    the open incidents charged to them, the summary figures and the per-kitchen rows. */
module Drilldown {
  import opened Wrappers
  import opened Seqs
  import opened Domain
  import AppShell

  /** `{ type, label }`: which roster and which name the drill-down is for. */
  datatype DrillFilter = DrillFilter(role: Role, name: string)

  /** `{ total, ratio, activeCount }`. */
  datatype DrillStats = DrillStats(total: nat, ratio: real, activeCount: nat)

  /** `kitchens`: the professional's kitchens in order; none without a filter. */
  function DrillKitchens(filter: Option<DrillFilter>, allKitchens: seq<Kitchen>): (r: seq<Kitchen>)
    ensures filter.None? ==> r == []
    ensures IsSubsequence(r, allKitchens)
    ensures filter.Some? ==> forall j :: 0 <= j < |allKitchens| ==>
              (allKitchens[j] in r <==> Professional(allKitchens[j], filter.value.role) == filter.value.name)
  {
    if filter.None? then [] else KitchensFor(allKitchens, filter.value.role, filter.value.name)
  }

  /** `activeIncidentsForStats`: the incidents that are not Completed and are charged to the
      professional (assigned to them, or blaming their role on one of their kitchens); none without
      a filter or without kitchens. */
  function ActiveForStats(filter: Option<DrillFilter>, allKitchens: seq<Kitchen>, allIncidents: seq<Incident>): (r: seq<Incident>)
    ensures filter.None? || DrillKitchens(filter, allKitchens) == [] ==> r == []
    ensures IsSubsequence(r, allIncidents)
    ensures forall j :: 0 <= j < |r| ==> r[j].status != Completed
    ensures forall j :: 0 <= j < |r| ==>
              AttributedTo(r[j], filter.value.role, filter.value.name, KitchenIds(DrillKitchens(filter, allKitchens)))
    ensures filter.Some? && DrillKitchens(filter, allKitchens) != [] ==>
              forall j :: 0 <= j < |allIncidents| && allIncidents[j].status != Completed
                && AttributedTo(allIncidents[j], filter.value.role, filter.value.name, KitchenIds(DrillKitchens(filter, allKitchens)))
                ==> allIncidents[j] in r
  {
    var ks := DrillKitchens(filter, allKitchens);
    if filter.None? || ks == [] then []
    else
      var ids := KitchenIds(ks);
      Filter(allIncidents, (i: Incident) => IsActive(i) && AttributedTo(i, filter.value.role, filter.value.name, ids))
  }

  /** `stats`: all zero without a filter or without kitchens; otherwise the number of kitchens, the
      number of open incidents charged, and the latter as a percentage of the former. */
  function Stats(filter: Option<DrillFilter>, allKitchens: seq<Kitchen>, allIncidents: seq<Incident>): (s: DrillStats)
    ensures filter.None? || DrillKitchens(filter, allKitchens) == [] ==> s == DrillStats(0, 0.0, 0)
    ensures s.total == |DrillKitchens(filter, allKitchens)|
    ensures s.activeCount == |ActiveForStats(filter, allKitchens, allIncidents)|
    ensures s.total > 0 ==> s.ratio == (s.activeCount as real / s.total as real) * 100.0
    ensures 0.0 <= s.ratio
  {
    var ks := DrillKitchens(filter, allKitchens);
    if filter.None? || ks == [] then DrillStats(0, 0.0, 0)
    else
      var active := ActiveForStats(filter, allKitchens, allIncidents);
      DrillStats(|ks|, Percentage(|active|, |ks|), |active|)
  }

  /** The drill-down agrees with the App.tsx summary row it was opened from: the same kitchen total,
      and never more open incidents than the row counts in all. */
  lemma {:induction false} DrillWithinSummaryRow(role: Role, name: string, scoped: seq<Kitchen>, scopedIncidents: seq<Incident>)
    ensures var s := Stats(Some(DrillFilter(role, name)), scoped, scopedIncidents);
      var row := AppShell.AppRow(name, role, scoped, scopedIncidents);
      s.total == row.totalKitchens && s.activeCount <= row.incidents
  {
    var filter := Some(DrillFilter(role, name));
    var ks := DrillKitchens(filter, scoped);
    var ids := KitchenIds(ks);
    if ks != [] {
      var p := (i: Incident) => IsActive(i) && AttributedTo(i, role, name, ids);
      var q := (i: Incident) => AttributedTo(i, role, name, ids);
      CountMonotone(scopedIncidents, p, q);
      CountCongruent(scopedIncidents, p, (i: Incident) => IsActive(i) && AttributedTo(i, filter.value.role, filter.value.name, ids));
      CountCongruent(scopedIncidents, q, (i: Incident) => AttributedTo(i, role, name, KitchenIds(KitchensFor(scoped, role, name))));
    }
  }

  /** `getIncidentsForKitchen`. */
  function KitchenIncidents(kitchenId: string, allIncidents: seq<Incident>): (r: seq<Incident>)
    ensures IsSubsequence(r, allIncidents)
    ensures forall j :: 0 <= j < |r| ==> r[j].kitchenId == kitchenId
    ensures forall j :: 0 <= j < |allIncidents| && allIncidents[j].kitchenId == kitchenId ==> allIncidents[j] in r
  {
    Filter(allIncidents, (i: Incident) => i.kitchenId == kitchenId)
  }

  /** `hasActive`: the row is flagged exactly when the kitchen has an incident that is not Completed;
      the flag shows how many. */
  function ActiveKitchenIncidents(kitchenId: string, allIncidents: seq<Incident>): (r: seq<Incident>)
    ensures IsSubsequence(r, allIncidents)
    ensures |r| > 0 <==> exists j :: 0 <= j < |allIncidents| && allIncidents[j].kitchenId == kitchenId && IsActive(allIncidents[j])
    ensures forall j :: 0 <= j < |r| ==> r[j].kitchenId == kitchenId && IsActive(r[j])
    ensures forall j :: 0 <= j < |allIncidents| && allIncidents[j].kitchenId == kitchenId && IsActive(allIncidents[j]) ==>
              allIncidents[j] in r
    ensures |r| == Count(allIncidents, (i: Incident) => i.kitchenId == kitchenId && IsActive(i))
  {
    var r := Filter(KitchenIncidents(kitchenId, allIncidents), (i: Incident) => IsActive(i));
    FilterFilter(allIncidents, (i: Incident) => i.kitchenId == kitchenId, (i: Incident) => IsActive(i),
      (i: Incident) => i.kitchenId == kitchenId && IsActive(i));
    SubsequenceTransitive(r, KitchenIncidents(kitchenId, allIncidents), allIncidents);
    r
  }

  /** The notes shown for one incident: all of them when expanded, otherwise only the last
      (`history.slice(-1)`, empty for an empty history). */
  function VisibleNotes(history: seq<Entry>, expanded: bool): (r: seq<Entry>)
    ensures expanded ==> r == history
    ensures !expanded ==> |r| == if history == [] then 0 else 1
    ensures !expanded && history != [] ==> r[0] == history[|history| - 1]
    ensures IsSuffix(r, history)
  {
    if expanded then history
    else if history == [] then []
    else history[|history| - 1..]
  }

  /** `history.slice(-1)` is a suffix. */
  predicate IsSuffix(r: seq<Entry>, s: seq<Entry>) {
    |r| <= |s| && s[|s| - |r|..] == r
  }

  /** The "more" button: shown only for more than one note, reporting how many are hidden. */
  function HiddenNotes(history: seq<Entry>): (n: Option<nat>)
    ensures n.Some? <==> |history| > 1
    ensures n.Some? ==> n.value + |VisibleNotes(history, false)| == |history|
  {
    if |history| > 1 then Some(|history| - 1) else None
  }
}
