/** The kitchen list (components/KitchenList.tsx): the free-text search, the per-row warning and the
    unified timeline of every note written about the selected kitchen. */
module KitchenList {
  import opened Wrappers
  import opened Seqs
  import opened Text
  import opened Domain
  import Drilldown

  /** `CombinedLogEntry`: a history entry tagged with its incident and that incident's cause. */
  datatype LogEntry = LogEntry(entry: Entry, incidentId: string, cause: Cause)

  /** The fields the list search looks at: order number, client, seller, installer and LDAP. */
  predicate ListMatch(k: Kitchen, q: string, lower: string -> string) {
    || Contains(lower(k.orderNumber), q) || Contains(lower(k.clientName), q)
    || Contains(lower(k.seller), q) || Contains(lower(k.installer), q) || Contains(lower(k.ldap), q)
  }

  /** `filteredKitchens`: every kitchen while the trimmed query is shorter than two characters;
      otherwise, in order, the kitchens matching the lower-cased (untrimmed) query. */
  function SearchKitchens(kitchens: seq<Kitchen>, query: string, lower: string -> string): (r: seq<Kitchen>)
    ensures |Trim(query)| < 2 ==> r == kitchens
    ensures IsSubsequence(r, kitchens)
    ensures |Trim(query)| >= 2 ==> forall j :: 0 <= j < |r| ==> ListMatch(r[j], lower(query), lower)
    ensures |Trim(query)| >= 2 ==>
              forall j :: 0 <= j < |kitchens| && ListMatch(kitchens[j], lower(query), lower) ==> kitchens[j] in r
  {
    if |Trim(query)| < 2 then
      SubsequenceReflexive(kitchens);
      kitchens
    else Filter(kitchens, (k: Kitchen) => ListMatch(k, lower(query), lower))
  }

  /** The figure on the warning badge (`activeIncidents.length`): the number of the kitchen's
      incidents that are not Completed. The badge is shown exactly when it is positive, that is
      when the kitchen has such an incident. */
  function RowWarning(k: Kitchen, incidents: seq<Incident>): (n: nat)
    ensures n == Count(incidents, (i: Incident) => i.kitchenId == k.id && IsActive(i))
    ensures n > 0 <==> exists j :: 0 <= j < |incidents| && incidents[j].kitchenId == k.id && IsActive(incidents[j])
  {
    |Drilldown.ActiveKitchenIncidents(k.id, incidents)|
  }

  /** An incident with no history but a legacy observation. */
  predicate IsLegacy(inc: Incident) {
    Entries(inc) == [] && inc.observation != []
  }

  /** The entry standing in for a legacy observation, authored `Legacy` / `Histórico`. */
  function LegacyLogEntry(inc: Incident): LogEntry {
    LogEntry(Entry(inc.observation, inc.createdAt.GetOr(0), inc.status, Some("Legacy"), Some("Histórico")),
             inc.id, inc.cause)
  }

  function Tagged(history: seq<Entry>, inc: Incident): (r: seq<LogEntry>)
    ensures |r| == |history|
    ensures forall j :: 0 <= j < |history| ==> r[j] == LogEntry(history[j], inc.id, inc.cause)
  {
    seq(|history|, j requires 0 <= j < |history| => LogEntry(history[j], inc.id, inc.cause))
  }

  /** What one incident adds to the timeline: its legacy entry, or each of its history entries. */
  function Contribution(inc: Incident): (r: seq<LogEntry>)
    ensures IsLegacy(inc) ==> r == [LegacyLogEntry(inc)]
    ensures !IsLegacy(inc) ==> |r| == |Entries(inc)| && forall j :: 0 <= j < |r| ==> r[j].entry == Entries(inc)[j]
    ensures forall j :: 0 <= j < |r| ==> r[j].incidentId == inc.id && r[j].cause == inc.cause
  {
    if IsLegacy(inc) then [LegacyLogEntry(inc)] else Tagged(Entries(inc), inc)
  }

  /** `allEntries` before sorting: the contributions of the incidents, in order. */
  function Collected(incs: seq<Incident>): (r: seq<LogEntry>)
    ensures forall j :: 0 <= j < |r| ==> exists i :: 0 <= i < |incs| && r[j].incidentId == incs[i].id
  {
    if incs == [] then []
    else
      var front := Collected(incs[..|incs| - 1]);
      var last := Contribution(incs[|incs| - 1]);
      assert forall j :: 0 <= j < |front| ==> (front + last)[j] == front[j];
      assert forall j :: 0 <= j < |last| ==> (front + last)[|front| + j] == last[j];
      front + last
  }

  function ContributionSizes(incs: seq<Incident>): (n: seq<int>)
    ensures |n| == |incs|
    ensures forall j :: 0 <= j < |incs| ==> n[j] == (if IsLegacy(incs[j]) then 1 else |Entries(incs[j])|)
  {
    seq(|incs|, j requires 0 <= j < |incs| => if IsLegacy(incs[j]) then 1 else |Entries(incs[j])|)
  }

  /** The timeline holds one entry per legacy incident and one per history entry of the others. */
  lemma {:induction false} CollectedLength(incs: seq<Incident>)
    ensures |Collected(incs)| == Sum(ContributionSizes(incs))
  {
    if incs != [] {
      var front := incs[..|incs| - 1];
      CollectedLength(front);
      assert ContributionSizes(incs) == ContributionSizes(front) + [ContributionSizes(incs)[|incs| - 1]];
      SumAppend(ContributionSizes(front), [ContributionSizes(incs)[|incs| - 1]]);
    }
  }

  function NewestKey(e: LogEntry): real {
    -(e.entry.date as real)
  }

  /** The incidents of the selected kitchen: all of them, in their order. */
  function KitchenIncidentsOf(selected: string, incidents: seq<Incident>): (r: seq<Incident>)
    ensures forall j :: 0 <= j < |r| ==> r[j].kitchenId == selected
    ensures forall j :: 0 <= j < |incidents| && incidents[j].kitchenId == selected ==> incidents[j] in r
    ensures IsSubsequence(r, incidents)
    ensures |r| == Count(incidents, (i: Incident) => i.kitchenId == selected)
  {
    Filter(incidents, (i: Incident) => i.kitchenId == selected)
  }

  /** The `forEach` loops that push onto `allEntries`: for each incident in order, its legacy entry
      or each of its history entries. */
  method CollectEntries(kIncidents: seq<Incident>) returns (allEntries: seq<LogEntry>)
    ensures allEntries == Collected(kIncidents)
  {
    allEntries := [];
    var k := 0;
    while k < |kIncidents|
      invariant 0 <= k <= |kIncidents|
      invariant allEntries == Collected(kIncidents[..k])
    {
      var inc := kIncidents[k];
      var history := Entries(inc);
      if |history| == 0 && inc.observation != [] {
        allEntries := allEntries + [LegacyLogEntry(inc)];
      } else {
        var m := 0;
        while m < |history|
          invariant 0 <= m <= |history|
          invariant allEntries == Collected(kIncidents[..k]) + Tagged(history[..m], inc)
        {
          allEntries := allEntries + [LogEntry(history[m], inc.id, inc.cause)];
          TaggedExtend(history, m, inc);
          m := m + 1;
        }
        assert history[..m] == history;
      }
      CollectedExtend(kIncidents, k);
      k := k + 1;
    }
    assert kIncidents[..k] == kIncidents;
  }

  lemma TaggedExtend(history: seq<Entry>, m: nat, inc: Incident)
    requires m < |history|
    ensures Tagged(history[..m + 1], inc) == Tagged(history[..m], inc) + [LogEntry(history[m], inc.id, inc.cause)]
  {
  }

  lemma CollectedExtend(incs: seq<Incident>, k: nat)
    requires k < |incs|
    ensures Collected(incs[..k + 1]) == Collected(incs[..k]) + Contribution(incs[k])
  {
    assert incs[..k + 1][..k] == incs[..k];
  }

  /** Sorting the timeline keeps its entries and puts the newest first. */
  lemma SortedNewestFirst(entries: seq<LogEntry>)
    ensures var r := SortBy(entries, NewestKey);
      && multiset(r) == multiset(entries) && |r| == |entries|
      && (forall j :: 0 <= j < |r| ==> r[j] in entries)
      && (forall a, b :: 0 <= a < b < |r| ==> r[a].entry.date >= r[b].entry.date)
  {
    var r := SortBy(entries, NewestKey);
    PermutationMembers(r, entries);
    assert forall a, b :: 0 <= a < b < |r| ==> NewestKey(r[a]) <= NewestKey(r[b]);
  }

  /** Only the selected kitchen's incidents contribute to its timeline. */
  lemma CollectedFromSelectedKitchen(selected: string, incidents: seq<Incident>)
    ensures forall e :: e in Collected(KitchenIncidentsOf(selected, incidents)) ==>
              exists i :: 0 <= i < |incidents| && incidents[i].id == e.incidentId && incidents[i].kitchenId == selected
  {
    var ks := KitchenIncidentsOf(selected, incidents);
    var r := Collected(ks);
    forall e | e in r
      ensures exists i :: 0 <= i < |incidents| && incidents[i].id == e.incidentId && incidents[i].kitchenId == selected
    {
      var j :| 0 <= j < |r| && r[j] == e;
      var x :| 0 <= x < |ks| && r[j].incidentId == ks[x].id;
      assert ks[x] in incidents;
    }
  }

  /** `unifiedTimeline`: nothing without a selected kitchen; otherwise the entries collected for its
      incidents, newest first. */
  method UnifiedTimeline(selectedKitchenId: Option<string>, incidents: seq<Incident>) returns (timeline: seq<LogEntry>)
    ensures !Truthy(selectedKitchenId) ==> timeline == []
    ensures Truthy(selectedKitchenId) ==>
              multiset(timeline) == multiset(Collected(KitchenIncidentsOf(selectedKitchenId.value, incidents)))
    ensures Truthy(selectedKitchenId) ==>
              |timeline| == Sum(ContributionSizes(KitchenIncidentsOf(selectedKitchenId.value, incidents)))
    ensures forall a, b :: 0 <= a < b < |timeline| ==> timeline[a].entry.date >= timeline[b].entry.date
    ensures forall j :: 0 <= j < |timeline| ==>
              exists i :: 0 <= i < |incidents| && incidents[i].id == timeline[j].incidentId
                          && incidents[i].kitchenId == selectedKitchenId.value
  {
    if !Truthy(selectedKitchenId) {
      return [];
    }
    var kIncidents := KitchenIncidentsOf(selectedKitchenId.value, incidents);
    var allEntries := CollectEntries(kIncidents);
    CollectedLength(kIncidents);
    CollectedFromSelectedKitchen(selectedKitchenId.value, incidents);
    SortedNewestFirst(allEntries);
    timeline := SortBy(allEntries, NewestKey);
  }
}
