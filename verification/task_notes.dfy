/** The task list (TaskList.tsx): appending observation notes, changing status, and the per-incident
    note drafts. */
module TaskNotes {
  import opened Wrappers
  import opened Text
  import opened Domain
  import Loader

  /** `drafts[id]`, which is `undefined` for an incident nobody has typed into. */
  function DraftOf(drafts: map<string, string>, id: string): (d: Option<string>)
    ensures d.Some? <==> id in drafts
    ensures d.Some? ==> d.value == drafts[id]
  {
    if id in drafts then Some(drafts[id]) else None
  }

  /** The author a note draft resolves to: the trimmed LDAP looked up in the directory. */
  function NoteAuthor(ldap: Option<string>): (u: Option<User>)
    ensures u.Some? <==> ldap.Some? && Trim(ldap.value) in USER_LDAP_MAP
    ensures u.Some? ==> u.value == USER_LDAP_MAP[Trim(ldap.value)]
  {
    DirectoryLdapsNonEmpty();
    if ldap.Some? && Trim(ldap.value) != [] then Lookup(Trim(ldap.value)) else None
  }

  /** `handleAddObservation`'s update: rejected (`None`) when the trimmed note is empty or the
      trimmed LDAP is not a directory user; otherwise the current history (a non-array counting as
      empty) plus exactly one entry, with `updatedAt` and nothing else beside it. */
  function NotePatch(incident: Incident, note: Option<string>, ldap: Option<string>, now: int): (p: Option<Patch>)
    ensures p.None? <==> note.None? || IsBlank(note.value) || NoteAuthor(ldap).None?
    ensures p.Some? ==> p.value.history.Some?
    ensures p.Some? ==> |p.value.history.value| == |Entries(incident)| + 1
    ensures p.Some? ==> p.value.history.value[..|Entries(incident)|] == Entries(incident)
    ensures p.Some? ==>
              p.value.history.value[|Entries(incident)|] == Entry(Trim(note.value), now, incident.status, Some(Trim(ldap.value)), Some(USER_LDAP_MAP[Trim(ldap.value)].name))
    ensures p.Some? ==> p.value.status.None? && p.value.observation.None? && p.value.updatedAt == Some(now)
  {
    if note.None? || Trim(note.value) == [] then None
    else
      match NoteAuthor(ldap)
      case None => None
      case Some(user) =>
        var entry := Entry(Trim(note.value), now, incident.status, Some(Trim(ldap.value)), Some(user.name));
        Some(Patch(Some(Entries(incident) + [entry]), None, None, Some(now)))
  }

  /** `handleUpdateStatus`: only the status and the timestamp are sent, whatever the current status. */
  function StatusPatch(newStatus: Status, now: int): (p: Patch)
    ensures p.history.None? && p.observation.None?
    ensures p.status == Some(newStatus) && p.updatedAt == Some(now)
  {
    Patch(None, Some(newStatus), None, Some(now))
  }

  /** `latestNote`: the last history entry, or none for an empty history. */
  function LatestNote(incident: Incident): (n: Option<Entry>)
    ensures n.None? <==> Entries(incident) == []
    ensures n.Some? ==> n.value == Entries(incident)[|Entries(incident)| - 1]
  {
    var h := Entries(incident);
    if h == [] then None else Some(h[|h| - 1])
  }

  /** The per-incident draft maps `newNote` and `noteLdap`. */
  class NoteDrafts {
    var newNote: map<string, string>
    var noteLdap: map<string, string>

    constructor ()
      ensures newNote == map[] && noteLdap == map[]
    {
      newNote, noteLdap := map[], map[];
    }

    /** Typing into an incident's note box. */
    method TypeNote(id: string, text: string)
      modifies this
      ensures newNote == old(newNote)[id := text] && noteLdap == old(noteLdap)
    {
      newNote := newNote[id := text];
    }

    /** Typing into an incident's LDAP box. */
    method TypeLdap(id: string, text: string)
      modifies this
      ensures noteLdap == old(noteLdap)[id := text] && newNote == old(newNote)
    {
      noteLdap := noteLdap[id := text];
    }

    /** `handleAddObservation`: the update it sends (if any) and, after a successful add, the
        incident's two drafts cleared; a rejected add changes nothing. */
    method AddObservation(incident: Incident, now: int) returns (p: Option<Patch>)
      modifies this
      ensures p == NotePatch(incident, DraftOf(old(newNote), incident.id), DraftOf(old(noteLdap), incident.id), now)
      ensures p.None? ==> newNote == old(newNote) && noteLdap == old(noteLdap)
      ensures p.Some? ==> newNote == old(newNote)[incident.id := ""] && noteLdap == old(noteLdap)[incident.id := ""]
      ensures forall id :: id != incident.id ==> DraftOf(newNote, id) == DraftOf(old(newNote), id)
      ensures forall id :: id != incident.id ==> DraftOf(noteLdap, id) == DraftOf(old(noteLdap), id)
    {
      p := NotePatch(incident, DraftOf(newNote, incident.id), DraftOf(noteLdap, incident.id), now);
      if p.Some? {
        newNote := newNote[incident.id := ""];
        noteLdap := noteLdap[incident.id := ""];
      }
    }
  }

  /** Append-only across the whole round trip: a note written through the root's update handler is,
      after the reload, the old history plus exactly that note, and the mirrored `observation` is its
      text. */
  lemma NoteSurvivesReload(row: Loader.RawIncident, incident: Incident, note: string, ldap: string, now: int, later: int,
                           parse: string -> Loader.Parsed, serialize: seq<Entry> -> string)
    requires !IsBlank(note) && Trim(ldap) in USER_LDAP_MAP
    requires var h := Entries(incident) + [NoteEntry(incident, note, ldap, now)];
      !IsBlank(serialize(h)) && serialize(h) != "NULL" && parse(serialize(h)) == Loader.EntryList(h)
    ensures var p := NotePatch(incident, Some(note), Some(ldap), now).value;
      var loaded := Loader.Normalize(Loader.ApplyUpdate(row, Loader.FormatUpdate(p, now, serialize)), parse, later);
      && |Entries(loaded)| == |Entries(incident)| + 1
      && Entries(loaded)[..|Entries(incident)|] == Entries(incident)
      && loaded.observation == Trim(note)
      && loaded.status == row.status.GetOr(Pending)
  {
    var h := Entries(incident) + [NoteEntry(incident, note, ldap, now)];
    NoteAccepted(incident, note, ldap, now);
    Loader.HistoryUpdateRoundTrip(row, h, None, parse, serialize, now, later);
    assert h[..|Entries(incident)|] == Entries(incident);
  }

  /** The entry a note by a directory user adds. */
  function NoteEntry(incident: Incident, note: string, ldap: string, now: int): Entry
    requires Trim(ldap) in USER_LDAP_MAP
  {
    Entry(Trim(note), now, incident.status, Some(Trim(ldap)), Some(USER_LDAP_MAP[Trim(ldap)].name))
  }

  /** A non-blank note signed by a directory user is accepted, as the history plus its entry. */
  lemma NoteAccepted(incident: Incident, note: string, ldap: string, now: int)
    requires !IsBlank(note) && Trim(ldap) in USER_LDAP_MAP
    ensures NotePatch(incident, Some(note), Some(ldap), now)
              == Some(Patch(Some(Entries(incident) + [NoteEntry(incident, note, ldap, now)]), None, None, Some(now)))
  {
    assert NoteAuthor(Some(ldap)) == Some(USER_LDAP_MAP[Trim(ldap)]);
  }

  /** A status change never touches the stored history or observation, so a status-only update leaves
      `observation` mirroring whatever it mirrored before. */
  lemma StatusUpdateKeepsHistory(row: Loader.RawIncident, s: Status, now: int, serialize: seq<Entry> -> string)
    ensures var stored := Loader.ApplyUpdate(row, Loader.FormatUpdate(StatusPatch(s, now), now, serialize));
      stored.history == row.history && stored.observation == row.observation
      && stored.status == Some(s) && stored.updatedAt == Some(now)
  {
  }

  /** The lookup fix matters here: as written, `constructor` resolves to a user, so a note signed
      `constructor` would be accepted and attributed to `Object`; the model rejects it. */
  lemma ConstructorNoteRejected(incident: Incident, note: string, now: int)
    ensures LookupAsWritten("constructor").Some?
    ensures NotePatch(incident, Some(note), Some("constructor"), now).None?
  {
    ConstructorIsNoAuthor();
  }

  /** `constructor` trims to itself and is no directory LDAP. */
  lemma ConstructorIsNoAuthor()
    ensures NoteAuthor(Some("constructor")).None?
  {
    TrimUnpadded("constructor");
    DirectoryLdapsNonEmpty();
  }
}
