/** The detail view of one kitchen (components/KitchenDetailModal.tsx). */
module KitchenDetail {
  import opened Wrappers
  import opened Seqs
  import opened Domain
  import AppShell

  function NewestCreatedKey(i: Incident): real {
    -(i.createdAt.GetOr(0) as real)
  }

  /** `kitchenIncidents`: nothing without a kitchen; otherwise exactly that kitchen's incidents,
      newest first by creation time. */
  function DetailIncidents(kitchen: Option<Kitchen>, incidents: seq<Incident>): (r: Option<seq<Incident>>)
    ensures r.None? <==> kitchen.None?
    ensures r.Some? ==> multiset(r.value) == multiset(Filter(incidents, (i: Incident) => i.kitchenId == kitchen.value.id))
    ensures r.Some? ==> forall j :: 0 <= j < |r.value| ==> r.value[j].kitchenId == kitchen.value.id && r.value[j] in incidents
    ensures r.Some? ==> forall j :: 0 <= j < |incidents| && incidents[j].kitchenId == kitchen.value.id ==> incidents[j] in r.value
    ensures r.Some? ==> forall a, b :: 0 <= a < b < |r.value| ==>
              r.value[a].createdAt.GetOr(0) >= r.value[b].createdAt.GetOr(0)
  {
    if kitchen.None? then None
    else
      var own := Filter(incidents, (i: Incident) => i.kitchenId == kitchen.value.id);
      var sorted := SortBy(own, NewestCreatedKey);
      PermutationMembers(sorted, own);
      PermutationMembers(own, sorted);
      assert forall a, b :: 0 <= a < b < |sorted| ==> NewestCreatedKey(sorted[a]) <= NewestCreatedKey(sorted[b]);
      Some(sorted)
  }

  /** The "last update" line: shown when the two timestamps differ. */
  predicate ShowsLastUpdate(i: Incident) {
    i.updatedAt != i.createdAt
  }

  /** An incident just created by the root's `handleAddIncident` shows a "last update" line exactly
      when the two clock reads that stamped it differ: when both fall in the same millisecond the
      line stays hidden until the incident is changed. */
  lemma FreshIncidentHidesLastUpdate(id: string, created: int, updated: int, d: IncidentDraft)
    ensures ShowsLastUpdate(AppShell.NewIncidentRecord(id, created, updated, d)) <==> created != updated
  {
  }
}
