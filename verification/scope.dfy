/** The month/year scope that App.tsx and index.tsx both apply before any aggregation. */
module Scope {
  import opened Wrappers
  import opened Seqs
  import opened Domain

  /** The installation month and year match the selectors; an empty selector (`None`) matches all.
      Dates are compared as calendar (year, month) pairs. */
  predicate InWindow(k: Kitchen, month: Option<int>, year: Option<int>) {
    && (month.None? || k.installationDate.month == month.value)
    && (year.None? || k.installationDate.year == year.value)
  }

  /** `filteredKitchens`: the kitchens installed in the selected month and year, in order. */
  function ByMonthYear(ks: seq<Kitchen>, month: Option<int>, year: Option<int>): (r: seq<Kitchen>)
    ensures IsSubsequence(r, ks)
    ensures forall i :: 0 <= i < |r| ==> r[i] in ks && InWindow(r[i], month, year)
    ensures forall i :: 0 <= i < |ks| && InWindow(ks[i], month, year) ==> ks[i] in r
    ensures month.None? && year.None? ==> r == ks
  {
    Filter(ks, (k: Kitchen) => InWindow(k, month, year))
  }

  /** `filteredIncidents`: the incidents whose kitchen survived the scope, in order. */
  function ScopedIncidents(incidents: seq<Incident>, scoped: seq<Kitchen>): (r: seq<Incident>)
    ensures IsSubsequence(r, incidents)
    ensures forall i :: 0 <= i < |r| ==> r[i] in incidents && r[i].kitchenId in KitchenIds(scoped)
    ensures forall i :: 0 <= i < |incidents| && incidents[i].kitchenId in KitchenIds(scoped) ==> incidents[i] in r
  {
    var ids := KitchenIds(scoped);
    Filter(incidents, (i: Incident) => i.kitchenId in ids)
  }

  /** Widening the scope to "all months, all years" keeps every incident whose kitchen is known. */
  lemma {:induction false} UnscopedKeepsKnownIncidents(ks: seq<Kitchen>, incidents: seq<Incident>)
    requires forall i :: 0 <= i < |incidents| ==> exists k :: k in ks && k.id == incidents[i].kitchenId
    ensures ScopedIncidents(incidents, ByMonthYear(ks, None, None)) == incidents
  {
    var ids := KitchenIds(ks);
    forall i | 0 <= i < |incidents| ensures incidents[i].kitchenId in ids {
      var k :| k in ks && k.id == incidents[i].kitchenId;
    }
  }
}
