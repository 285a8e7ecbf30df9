/** The root component mounted by index.tsx: loading and normalising incident rows, the
    month/year scope, its per-professional summary, and the payloads of its write handlers. */
module Loader {
  import opened Wrappers
  import opened Seqs
  import opened Text
  import opened Domain
  import opened Scope

  /** The `history` column of a fetched row: a JSON text, an already-decoded array, or anything else
      (missing, `null`, a number, an object). */
  datatype RawHistory = RawString(text: string) | RawArray(entries: seq<Entry>) | RawOther

  /** What `JSON.parse` makes of a text: it throws, yields something other than an array,
      or yields an array of entries. */
  datatype Parsed = Malformed | NonArray | EntryList(entries: seq<Entry>)

  /** An incident row as the backend returns it; `status` may be missing. */
  datatype RawIncident = RawIncident(
    id: string,
    kitchenId: string,
    description: string,
    observation: string,
    history: RawHistory,
    status: Option<Status>,
    assignedToSeller: Option<string>,
    assignedToInstaller: Option<string>,
    cause: Cause,
    createdAt: Option<int>,
    updatedAt: Option<int>)

  /** The outcome of the two fetches in `loadData`: either one threw (network error, or a body
      that is not JSON), or both answered, each possibly with `null`. */
  datatype LoadResponse = FetchFailed | Fetched(kitchens: Option<seq<Kitchen>>, rows: Option<seq<RawIncident>>)

  /** Only a string that is non-blank after trimming and is not `"NULL"` is handed to the parser. */
  predicate Parseable(h: RawHistory) {
    h.RawString? && !IsBlank(h.text) && h.text != "NULL"
  }

  /** The `let history` computed by `loadData`: the parsed array when there is one, otherwise empty;
      a parse that throws or yields a non-array never escapes. */
  function ParsedHistory(h: RawHistory, parse: string -> Parsed): (r: seq<Entry>)
    ensures !Parseable(h) ==> r == []
    ensures Parseable(h) && !parse(h.text).EntryList? ==> r == []
    ensures Parseable(h) && parse(h.text).EntryList? ==> r == parse(h.text).entries
  {
    if Parseable(h) then
      match parse(h.text)
      case EntryList(es) => es
      case _ => []
    else []
  }

  /** The entry synthesised from a legacy `observation`; `now` stands for `new Date()`. */
  function LegacyEntry(row: RawIncident, now: int): (e: Entry)
    ensures e.text == row.observation && e.authorLdap.None? && e.authorName.None?
    ensures row.createdAt.Some? ==> e.date == row.createdAt.value
    ensures row.createdAt.None? ==> e.date == now
    ensures e.statusAtTime == if row.status.Some? then row.status.value else Pending
  {
    Entry(row.observation, row.createdAt.GetOr(now), row.status.GetOr(Pending), None, None)
  }

  /** One row of `parsedIncidents`: every field copied, `history` replaced by its normalised form. */
  function Normalize(row: RawIncident, parse: string -> Parsed, now: int): (i: Incident)
    ensures i.id == row.id && i.kitchenId == row.kitchenId && i.description == row.description
    ensures i.observation == row.observation && i.cause == row.cause
    ensures i.assignedToSeller == row.assignedToSeller && i.assignedToInstaller == row.assignedToInstaller
    ensures i.createdAt == row.createdAt && i.updatedAt == row.updatedAt
    ensures i.status == row.status.GetOr(Pending)
    ensures i.history.Some?
    ensures ParsedHistory(row.history, parse) == [] && row.observation != [] ==>
      Entries(i) == [LegacyEntry(row, now)]
    ensures ParsedHistory(row.history, parse) != [] || row.observation == [] ==>
      Entries(i) == ParsedHistory(row.history, parse)
    ensures Entries(i) == [] <==> ParsedHistory(row.history, parse) == [] && row.observation == []
  {
    var history := ParsedHistory(row.history, parse);
    Incident(row.id, row.kitchenId, row.description, row.observation,
      Some(if history == [] && row.observation != [] then [LegacyEntry(row, now)] else history),
      row.status.GetOr(Pending), row.assignedToSeller, row.assignedToInstaller, row.cause,
      row.createdAt, row.updatedAt)
  }

  /** `(iRes || []).map(...)`: one normalised incident per row, in the same order. */
  function NormalizeAll(rows: seq<RawIncident>, parse: string -> Parsed, now: int): (r: seq<Incident>)
    ensures |r| == |rows|
    ensures forall j :: 0 <= j < |rows| ==> r[j] == Normalize(rows[j], parse, now)
    ensures forall j :: 0 <= j < |rows| ==> r[j].id == rows[j].id && r[j].history.Some?
  {
    seq(|rows|, j requires 0 <= j < |rows| => Normalize(rows[j], parse, now))
  }

  /** The row an incident is stored as: its history serialised to text. */
  function Stored(i: Incident, serialize: seq<Entry> -> string): RawIncident {
    RawIncident(i.id, i.kitchenId, i.description, i.observation, RawString(serialize(Entries(i))),
      Some(i.status), i.assignedToSeller, i.assignedToInstaller, i.cause, i.createdAt, i.updatedAt)
  }

  /** Normalisation is idempotent across a store/load cycle: when the serializer's text for the
      normalised history parses back to that history, loading the stored row gives the same incident. */
  lemma NormalizeStoredIdempotent(row: RawIncident, parse: string -> Parsed, serialize: seq<Entry> -> string, now: int, later: int)
    requires var h := Entries(Normalize(row, parse, now));
      !IsBlank(serialize(h)) && serialize(h) != "NULL" && parse(serialize(h)) == EntryList(h)
    ensures Normalize(Stored(Normalize(row, parse, now), serialize), parse, later) == Normalize(row, parse, now)
  {
    var i := Normalize(row, parse, now);
    var again := Normalize(Stored(i, serialize), parse, later);
    assert ParsedHistory(Stored(i, serialize).history, parse) == Entries(i);
    assert Entries(again) == Entries(i);
  }

  /** The root component's state: the two loaded collections and the month/year selectors. */
  class RootApp {
    var kitchens: seq<Kitchen>
    var incidents: seq<Incident>
    var selectedMonth: Option<int>
    var selectedYear: Option<int>

    constructor ()
      ensures kitchens == [] && incidents == []
      ensures selectedMonth == None && selectedYear == Some(2025)
    {
      kitchens, incidents := [], [];
      selectedMonth, selectedYear := None, Some(2025);
    }

    /** `loadData`: when the fetches throw nothing changes; otherwise both collections are replaced,
        a `null` answer counting as an empty list, and every incident row is normalised. */
    method LoadData(response: LoadResponse, parse: string -> Parsed, now: int)
      modifies this
      ensures response.FetchFailed? ==> kitchens == old(kitchens) && incidents == old(incidents)
      ensures response.Fetched? ==> kitchens == response.kitchens.GetOr([])
      ensures response.Fetched? ==> incidents == NormalizeAll(response.rows.GetOr([]), parse, now)
      ensures selectedMonth == old(selectedMonth) && selectedYear == old(selectedYear)
    {
      if response.Fetched? {
        kitchens := response.kitchens.GetOr([]);
        incidents := NormalizeAll(response.rows.GetOr([]), parse, now);
      }
    }

    /** The month and year selectors. */
    method SelectScope(month: Option<int>, year: Option<int>)
      modifies this
      ensures selectedMonth == month && selectedYear == year
      ensures kitchens == old(kitchens) && incidents == old(incidents)
    {
      selectedMonth, selectedYear := month, year;
    }

    /** `handleAddKitchen`/`handleAddIncident`/`handleUpdateIncident`: after the write, the data is
        reloaded unless the write threw; the HTTP status of the write is not inspected. */
    method AfterWrite(writeThrew: bool, reload: LoadResponse, parse: string -> Parsed, now: int)
      modifies this
      ensures writeThrew ==> kitchens == old(kitchens) && incidents == old(incidents)
      ensures !writeThrew && reload.Fetched? ==> kitchens == reload.kitchens.GetOr([])
      ensures !writeThrew && reload.Fetched? ==> incidents == NormalizeAll(reload.rows.GetOr([]), parse, now)
      ensures !writeThrew && reload.FetchFailed? ==> kitchens == old(kitchens) && incidents == old(incidents)
      ensures selectedMonth == old(selectedMonth) && selectedYear == old(selectedYear)
    {
      if !writeThrew {
        LoadData(reload, parse, now);
      }
    }
  }

  /** `getSummary`'s incident test: the incident must blame the role, and then be assigned to the
      seller by name or, for installers, be assigned by name or belong to one of their kitchens. */
  predicate IndexCounts(i: Incident, role: Role, name: string, ownIds: set<string>) {
    && i.cause == CauseOf(role)
    && match role
       case SellerRole => i.assignedToSeller == Some(name)
       case InstallerRole => i.assignedToInstaller == Some(name) || i.kitchenId in ownIds
  }

  /** One row of `getSummary`. */
  function IndexRow(name: string, role: Role, scoped: seq<Kitchen>, scopedIncidents: seq<Incident>): (s: Summary)
    ensures s.name == name
    ensures s.totalKitchens == |KitchensFor(scoped, role, name)|
    ensures s.incidents == Count(scopedIncidents, (i: Incident) =>
              i.cause == CauseOf(role)
              && (AssignedTo(i, role) == Some(name) || (role == InstallerRole && OwnsKitchen(scoped, role, name, i.kitchenId))))
    ensures s.incidencePercentage == Percentage(s.incidents, s.totalKitchens)
  {
    var ks := KitchensFor(scoped, role, name);
    var ids := KitchenIds(ks);
    OwnKitchenIds(scoped, role, name);
    CountCongruent(scopedIncidents, (i: Incident) => IndexCounts(i, role, name, ids), (i: Incident) =>
              i.cause == CauseOf(role)
              && (AssignedTo(i, role) == Some(name) || (role == InstallerRole && OwnsKitchen(scoped, role, name, i.kitchenId))));
    var n := Count(scopedIncidents, (i: Incident) => IndexCounts(i, role, name, ids));
    Summary(name, |ks|, n, Percentage(n, |ks|))
  }

  /** `getSummary(list, type)`: one row per roster name, in roster order. */
  function IndexSummary(roster: seq<string>, role: Role, scoped: seq<Kitchen>, scopedIncidents: seq<Incident>): (r: seq<Summary>)
    ensures |r| == |roster|
    ensures forall j :: 0 <= j < |roster| ==> r[j].name == roster[j]
    ensures forall j :: 0 <= j < |roster| ==> r[j].totalKitchens == |KitchensFor(scoped, role, roster[j])|
    ensures forall j :: 0 <= j < |roster| ==> r[j].incidents <= |scopedIncidents|
    ensures forall j :: 0 <= j < |roster| && r[j].totalKitchens == 0 ==> r[j].incidencePercentage == 0.0
    ensures forall j :: 0 <= j < |roster| ==> r[j] == IndexRow(roster[j], role, scoped, scopedIncidents)
  {
    var r := seq(|roster|, j requires 0 <= j < |roster| => IndexRow(roster[j], role, scoped, scopedIncidents));
    IndexRowsShape(roster, role, scoped, scopedIncidents, r);
    r
  }

  /** What every row of `getSummary` shows follows from its being the name's `IndexRow`. */
  lemma IndexRowsShape(roster: seq<string>, role: Role, scoped: seq<Kitchen>, scopedIncidents: seq<Incident>, r: seq<Summary>)
    requires |r| == |roster|
    requires forall j :: 0 <= j < |roster| ==> r[j] == IndexRow(roster[j], role, scoped, scopedIncidents)
    ensures forall j :: 0 <= j < |roster| ==> r[j].name == roster[j]
    ensures forall j :: 0 <= j < |roster| ==> r[j].totalKitchens == |KitchensFor(scoped, role, roster[j])|
    ensures forall j :: 0 <= j < |roster| ==> r[j].incidents <= |scopedIncidents|
    ensures forall j :: 0 <= j < |roster| && r[j].totalKitchens == 0 ==> r[j].incidencePercentage == 0.0
  {
  }

  /** An incident charged by `getSummary` to anyone in a role always blames that role: the row's
      count never exceeds the number of incidents whose cause is the role's. */
  lemma {:induction false} IndexRowCountsOnlyBlamed(name: string, role: Role, scoped: seq<Kitchen>, scopedIncidents: seq<Incident>)
    ensures IndexRow(name, role, scoped, scopedIncidents).incidents
      <= Count(scopedIncidents, (i: Incident) => i.cause == CauseOf(role))
  {
    var ids := KitchenIds(KitchensFor(scoped, role, name));
    CountMonotone(scopedIncidents, (i: Incident) => IndexCounts(i, role, name, ids),
      (i: Incident) => i.cause == CauseOf(role));
  }

  /** The record `handleAddKitchen` posts: the draft with a freshly generated id. */
  function Registered(id: string, d: KitchenDraft): (k: Kitchen)
    ensures k.id == id && k.ldap == d.ldap && k.orderNumber == d.orderNumber && k.clientName == d.clientName
    ensures k.seller == d.seller && k.installer == d.installer && k.installationDate == d.installationDate
  {
    Kitchen(id, d.ldap, d.orderNumber, d.clientName, d.seller, d.installer, d.installationDate)
  }

  /** The row `handleAddIncident` posts: a generated id, both timestamps set to now, the draft's
      fields, and its history serialised to text. */
  function NewIncidentRow(id: string, created: int, updated: int, d: IncidentDraft, serialize: seq<Entry> -> string): (row: RawIncident)
    ensures row.id == id && row.createdAt == Some(created) && row.updatedAt == Some(updated)
    ensures row.history == RawString(serialize(d.history))
    ensures row.kitchenId == d.kitchenId && row.description == d.description && row.observation == d.observation
    ensures row.status == Some(d.status) && row.cause == d.cause
    ensures row.assignedToSeller == d.assignedToSeller && row.assignedToInstaller == d.assignedToInstaller
  {
    RawIncident(id, d.kitchenId, d.description, d.observation, RawString(serialize(d.history)), Some(d.status),
      d.assignedToSeller, d.assignedToInstaller, d.cause, Some(created), Some(updated))
  }

  /** How the `history` field travels in an update payload: absent, as a JSON array, or as text. */
  datatype StoredHistory = Omitted | AsArray(entries: seq<Entry>) | AsText(text: string)

  /** The `updates` object `handleUpdateIncident` posts. */
  datatype UpdatePayload = UpdatePayload(history: StoredHistory, status: Option<Status>, observation: Option<string>, updatedAt: int)

  /** `handleUpdateIncident`'s payload shaping: a non-empty history is serialised and mirrored into
      `observation` (its last entry's text); any other update keeps its own `observation`; the
      timestamp is always replaced by `now`. */
  function FormatUpdate(u: Patch, now: int, serialize: seq<Entry> -> string): (p: UpdatePayload)
    ensures p.updatedAt == now && p.status == u.status
    ensures u.history.Some? && u.history.value != [] ==>
      p.history == AsText(serialize(u.history.value))
      && p.observation == Some(u.history.value[|u.history.value| - 1].text)
    ensures u.history.None? ==> p.history == Omitted && p.observation == u.observation
    ensures u.history == Some([]) ==> p.history == AsArray([]) && p.observation == u.observation
  {
    match u.history
    case None => UpdatePayload(Omitted, u.status, u.observation, now)
    case Some(h) =>
      if h != [] then UpdatePayload(AsText(serialize(h)), u.status, Some(h[|h| - 1].text), now)
      else UpdatePayload(AsArray(h), u.status, u.observation, now)
  }

  /** The record store's field patch ("last write wins"): each field present in the payload
      overwrites the stored one. */
  function ApplyUpdate(row: RawIncident, p: UpdatePayload): (r: RawIncident)
    ensures r.id == row.id && r.kitchenId == row.kitchenId && r.description == row.description
    ensures r.cause == row.cause && r.createdAt == row.createdAt && r.updatedAt == Some(p.updatedAt)
    ensures p.history.Omitted? ==> r.history == row.history
    ensures p.history.AsText? ==> r.history == RawString(p.history.text)
    ensures p.status.None? ==> r.status == row.status
    ensures p.observation.None? ==> r.observation == row.observation
  {
    row.(
      history := match p.history
        case Omitted => row.history
        case AsArray(es) => RawArray(es)
        case AsText(t) => RawString(t),
      status := if p.status.Some? then p.status else row.status,
      observation := p.observation.GetOr(row.observation),
      updatedAt := Some(p.updatedAt))
  }

  /** A non-empty history written through `handleUpdateIncident` is the history the next load
      reads back, whatever legacy `observation` the row carried. */
  lemma HistoryUpdateRoundTrip(row: RawIncident, h: seq<Entry>, st: Option<Status>, parse: string -> Parsed,
                               serialize: seq<Entry> -> string, now: int, later: int)
    requires h != []
    requires !IsBlank(serialize(h)) && serialize(h) != "NULL" && parse(serialize(h)) == EntryList(h)
    ensures var loaded := Normalize(ApplyUpdate(row, FormatUpdate(Patch(Some(h), st, None, Some(now)), now, serialize)), parse, later);
      Entries(loaded) == h && loaded.observation == h[|h| - 1].text && loaded.updatedAt == Some(now)
  {
    var p := FormatUpdate(Patch(Some(h), st, None, Some(now)), now, serialize);
    assert p.history == AsText(serialize(h)) && p.observation == Some(h[|h| - 1].text);
    var stored := ApplyUpdate(row, p);
    assert stored.history == RawString(serialize(h)) && stored.observation == h[|h| - 1].text;
    assert ParsedHistory(stored.history, parse) == h;
    var loaded := Normalize(stored, parse, later);
    assert Entries(loaded) == h;
  }

  /** An incident created through `handleAddIncident` loads back with the history it was created with,
      provided an empty initial history comes with an empty observation (as the registration form
      guarantees). */
  lemma NewIncidentRoundTrip(id: string, created: int, updated: int, d: IncidentDraft, parse: string -> Parsed,
                             serialize: seq<Entry> -> string, later: int)
    requires d.history == [] ==> d.observation == []
    requires !IsBlank(serialize(d.history)) && serialize(d.history) != "NULL"
    requires parse(serialize(d.history)) == EntryList(d.history)
    ensures var loaded := Normalize(NewIncidentRow(id, created, updated, d, serialize), parse, later);
      Entries(loaded) == d.history && loaded.status == d.status
      && loaded.createdAt == Some(created) && loaded.updatedAt == Some(updated)
  {
    assert ParsedHistory(NewIncidentRow(id, created, updated, d, serialize).history, parse) == d.history;
  }
}
