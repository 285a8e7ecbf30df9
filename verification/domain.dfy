/** The records, enumerations and constant rosters of the dashboard (types.ts, constants.ts),
    with the few accessors every view shares. */
module Domain {
  import opened Wrappers
  import opened Seqs

  /** `TaskStatus`: Pendiente, Gestionando, Completada. */
  datatype Status = Pending | InProgress | Completed

  /** `IncidentCause`: Vendedor, Instalador, Logística, Otro. */
  datatype Cause = SellerCause | InstallerCause | Logistics | Other

  /** The `'seller' | 'installer'` tag that selects one of the two professional rosters. */
  datatype Role = SellerRole | InstallerRole

  /** A calendar date (`YYYY-MM-DD`). */
  datatype Date = Date(year: int, month: int, day: int)

  /** One installed project. */
  datatype Kitchen = Kitchen(
    id: string,
    ldap: string,
    orderNumber: string,
    clientName: string,
    seller: string,
    installer: string,
    installationDate: Date)

  /** A kitchen as the registration form emits it, before an id is generated (`Omit<Kitchen, 'id'>`). */
  datatype KitchenDraft = KitchenDraft(
    ldap: string,
    orderNumber: string,
    clientName: string,
    seller: string,
    installer: string,
    installationDate: Date)

  /** One line of an incident's audit trail. Entries synthesised from a legacy `observation`
      carry no author. Timestamps are milliseconds. */
  datatype Entry = Entry(
    text: string,
    date: int,
    statusAtTime: Status,
    authorLdap: Option<string>,
    authorName: Option<string>)

  /** One reported problem against a kitchen. `history` is optional in the record type
      (`None` stands for a missing or non-array value); `createdAt`/`updatedAt` may be absent
      on legacy rows. */
  datatype Incident = Incident(
    id: string,
    kitchenId: string,
    description: string,
    observation: string,
    history: Option<seq<Entry>>,
    status: Status,
    assignedToSeller: Option<string>,
    assignedToInstaller: Option<string>,
    cause: Cause,
    createdAt: Option<int>,
    updatedAt: Option<int>)

  /** An incident as the registration form emits it (`Omit<Incident, 'id' | 'createdAt' | 'updatedAt'>`). */
  datatype IncidentDraft = IncidentDraft(
    kitchenId: string,
    description: string,
    observation: string,
    history: seq<Entry>,
    status: Status,
    assignedToSeller: Option<string>,
    assignedToInstaller: Option<string>,
    cause: Cause)

  /** The fields of a `Partial<Incident>` update that the views send. */
  datatype Patch = Patch(
    history: Option<seq<Entry>>,
    status: Option<Status>,
    observation: Option<string>,
    updatedAt: Option<int>)

  /** One row of a per-professional incidence table (`SummaryData`). */
  datatype Summary = Summary(name: string, totalKitchens: nat, incidents: nat, incidencePercentage: real)

  /** A directory record: display name and role. */
  datatype User = User(name: string, role: string)

  const SELLERS: seq<string> := ["Lara", "Maybeth", "Raquel"]
  const INSTALLERS: seq<string> := ["Instalador A", "Instalador B", "Instalador C", "Instalador D"]
  const INCIDENT_CAUSES: seq<Cause> := [SellerCause, InstallerCause, Logistics, Other]
  const TASK_STATUSES: seq<Status> := [Pending, InProgress, Completed]

  /** The role whose members are forced as the seller of what they register. */
  const VENDEDOR: string := "Vendedor"

  /** The identity directory, keyed by LDAP. */
  const USER_LDAP_MAP: map<string, User> := map[
    "30000001" := User("Lara", "Vendedor"),
    "30000002" := User("Maybeth", "Vendedor"),
    "30000003" := User("Raquel", "Vendedor"),
    "30104750" := User("Javi", "Manager"),
    "30000004" := User("Juanan", "CPC")]

  /** The directory in the order `Object.entries` enumerates it: its keys are array-index-like
      strings, which are listed in ascending numeric order rather than in declaration order. */
  const DIRECTORY_ENTRIES: seq<(string, User)> := [
    ("30000001", User("Lara", "Vendedor")),
    ("30000002", User("Maybeth", "Vendedor")),
    ("30000003", User("Raquel", "Vendedor")),
    ("30000004", User("Juanan", "CPC")),
    ("30104750", User("Javi", "Manager"))]

  /** The enumeration lists each directory record exactly once. */
  lemma DirectoryEntriesEnumerateMap()
    ensures forall i :: 0 <= i < |DIRECTORY_ENTRIES| ==>
      DIRECTORY_ENTRIES[i].0 in USER_LDAP_MAP && USER_LDAP_MAP[DIRECTORY_ENTRIES[i].0] == DIRECTORY_ENTRIES[i].1
    ensures forall l :: l in USER_LDAP_MAP ==> exists i :: 0 <= i < |DIRECTORY_ENTRIES| && DIRECTORY_ENTRIES[i].0 == l
    ensures forall i, j :: 0 <= i < j < |DIRECTORY_ENTRIES| ==> DIRECTORY_ENTRIES[i].0 != DIRECTORY_ENTRIES[j].0
  {
    forall l | l in USER_LDAP_MAP
      ensures exists i :: 0 <= i < |DIRECTORY_ENTRIES| && DIRECTORY_ENTRIES[i].0 == l
    {
      if l == "30000001" { assert DIRECTORY_ENTRIES[0].0 == l; }
      else if l == "30000002" { assert DIRECTORY_ENTRIES[1].0 == l; }
      else if l == "30000003" { assert DIRECTORY_ENTRIES[2].0 == l; }
      else if l == "30000004" { assert DIRECTORY_ENTRIES[3].0 == l; }
      else { assert DIRECTORY_ENTRIES[4].0 == l; }
    }
  }

  /** Every directory LDAP is an eight-digit string, so the empty LDAP is never a user. */
  lemma DirectoryLdapsNonEmpty()
    ensures forall l :: l in USER_LDAP_MAP ==> |l| == 8
    ensures [] !in USER_LDAP_MAP
  {
  }

  /** `USER_LDAP_MAP[ldap] || null`, reading only the directory's own records. */
  function Lookup(ldap: string): (u: Option<User>)
    ensures u.Some? <==> ldap in USER_LDAP_MAP
    ensures u.Some? ==> u.value == USER_LDAP_MAP[ldap]
  {
    if ldap in USER_LDAP_MAP then Some(USER_LDAP_MAP[ldap]) else None
  }

  /** The members every plain object inherits from `Object.prototype`: its methods, its legacy
      accessor helpers and the `__proto__` accessor. */
  const INHERITED_MEMBERS: set<string> :=
    {"constructor", "hasOwnProperty", "isPrototypeOf", "propertyIsEnumerable",
     "toLocaleString", "toString", "valueOf",
     "__defineGetter__", "__defineSetter__", "__lookupGetter__", "__lookupSetter__", "__proto__"}

  /** What `USER_LDAP_MAP[ldap]` yields when it is truthy, read through `.name` and `.role`:
      `None` stands for `undefined`. */
  datatype Resolved = Resolved(name: Option<string>, role: Option<string>)

  /** `USER_LDAP_MAP[ldap]` as the source evaluates it: indexing a plain object also finds the
      members it inherits. Each inherited method is a (truthy) function whose `name` is its own
      name (`Object` for `constructor`) and which has no `role`; `__proto__` yields
      `Object.prototype`, a truthy object with neither. */
  function LookupAsWritten(ldap: string): (u: Option<Resolved>)
    ensures ldap in USER_LDAP_MAP ==> u == Some(Resolved(Some(USER_LDAP_MAP[ldap].name), Some(USER_LDAP_MAP[ldap].role)))
    ensures u.Some? <==> ldap in USER_LDAP_MAP || ldap in INHERITED_MEMBERS
    ensures ldap !in USER_LDAP_MAP && u.Some? ==> u.value.role.None?
  {
    if ldap in USER_LDAP_MAP then Some(Resolved(Some(USER_LDAP_MAP[ldap].name), Some(USER_LDAP_MAP[ldap].role)))
    else if ldap == "__proto__" then Some(Resolved(None, None))
    else if ldap in INHERITED_MEMBERS then Some(Resolved(Some(if ldap == "constructor" then "Object" else ldap), None))
    else None
  }

  /** The discrepancy: `constructor` and `__proto__` are no directory LDAPs, yet the source's lookup
      resolves them (to a user named `Object`, and to one with no name); the corrected lookup
      rejects both. */
  lemma InheritedMemberPassesAsWritten()
    ensures "constructor" !in USER_LDAP_MAP && "__proto__" !in USER_LDAP_MAP
    ensures LookupAsWritten("constructor") == Some(Resolved(Some("Object"), None))
    ensures LookupAsWritten("__proto__") == Some(Resolved(None, None))
    ensures Lookup("constructor") == None && Lookup("__proto__") == None
  {
  }

  /** The two lookups agree everywhere except on the inherited members. */
  lemma LookupsAgreeOffInherited(ldap: string)
    ensures ldap !in INHERITED_MEMBERS ==> (LookupAsWritten(ldap).Some? <==> Lookup(ldap).Some?)
    ensures Lookup(ldap).Some? ==> LookupAsWritten(ldap).value.name == Some(Lookup(ldap).value.name)
  {
  }

  /** `user.role === 'Vendedor'` for a resolved user. */
  predicate IsSellerUser(u: Option<User>) {
    u.Some? && u.value.role == VENDEDOR
  }

  /** A nullable string in a truth test: `null` and `''` are false. */
  predicate Truthy(s: Option<string>) {
    s.Some? && s.value != []
  }

  /** `Array.isArray(incident.history) ? incident.history : []`. */
  function Entries(i: Incident): seq<Entry> {
    i.history.GetOr([])
  }

  /** `status !== TaskStatus.COMPLETED`. */
  predicate IsActive(i: Incident) {
    i.status != Completed
  }

  /** `k.seller` or `k.installer`, as the role selects. */
  function Professional(k: Kitchen, role: Role): string {
    match role
    case SellerRole => k.seller
    case InstallerRole => k.installer
  }

  /** `i.assignedToSeller` or `i.assignedToInstaller`, as the role selects. */
  function AssignedTo(i: Incident, role: Role): Option<string> {
    match role
    case SellerRole => i.assignedToSeller
    case InstallerRole => i.assignedToInstaller
  }

  /** The cause that blames the role: `SELLER` for sellers, `INSTALLER` for installers. */
  function CauseOf(role: Role): Cause {
    match role
    case SellerRole => SellerCause
    case InstallerRole => InstallerCause
  }

  /** The roster of the role. */
  function Roster(role: Role): seq<string> {
    match role
    case SellerRole => SELLERS
    case InstallerRole => INSTALLERS
  }

  /** The kitchens handled by `name` in the given role, in order. */
  function KitchensFor(ks: seq<Kitchen>, role: Role, name: string): (r: seq<Kitchen>)
    ensures forall i :: 0 <= i < |r| ==> r[i] in ks && Professional(r[i], role) == name
    ensures forall i :: 0 <= i < |ks| && Professional(ks[i], role) == name ==> ks[i] in r
    ensures IsSubsequence(r, ks)
  {
    Filter(ks, (k: Kitchen) => Professional(k, role) == name)
  }

  /** `new Set(ks.map(k => k.id))`. */
  function KitchenIds(ks: seq<Kitchen>): (ids: set<string>)
    ensures forall i :: 0 <= i < |ks| ==> ks[i].id in ids
    ensures forall id :: id in ids ==> exists i :: 0 <= i < |ks| && ks[i].id == id
  {
    set k | k in ks :: k.id
  }

  /** Some kitchen of `ks` with that id is handled by `name` in the role. */
  predicate OwnsKitchen(ks: seq<Kitchen>, role: Role, name: string, id: string) {
    exists k :: k in ks && Professional(k, role) == name && k.id == id
  }

  /** The id set of someone's kitchens holds exactly the ids of kitchens they handle. */
  lemma OwnKitchenIds(ks: seq<Kitchen>, role: Role, name: string)
    ensures forall id :: id in KitchenIds(KitchensFor(ks, role, name)) <==> OwnsKitchen(ks, role, name, id)
  {
    var own := KitchensFor(ks, role, name);
    forall id | OwnsKitchen(ks, role, name, id)
      ensures id in KitchenIds(own)
    {
      var k :| k in ks && Professional(k, role) == name && k.id == id;
      var i :| 0 <= i < |ks| && ks[i] == k;
      assert ks[i] in own;
    }
  }

  /** The rule App.tsx and the drill-down share for charging an incident to a professional:
      it is assigned to them by name, or it blames their role and belongs to one of their kitchens. */
  predicate AttributedTo(i: Incident, role: Role, name: string, ownIds: set<string>) {
    AssignedTo(i, role) == Some(name) || (i.kitchenId in ownIds && i.cause == CauseOf(role))
  }

  /** `kitchens.find(k => k.id === id)`: the first kitchen with that id. */
  function FindKitchen(ks: seq<Kitchen>, id: string): (r: Option<Kitchen>)
    ensures r.None? <==> forall i :: 0 <= i < |ks| ==> ks[i].id != id
    ensures r.Some? ==> r.value in ks && r.value.id == id
    ensures r.Some? ==> exists i :: 0 <= i < |ks| && ks[i] == r.value && forall j :: 0 <= j < i ==> ks[j].id != id
  {
    if ks == [] then None
    else if ks[0].id == id then Some(ks[0])
    else
      var r := FindKitchen(ks[1..], id);
      assert r.Some? ==> exists i :: 0 < i < |ks| && ks[i] == r.value && forall j :: 0 < j < i ==> ks[j].id != id;
      r
  }

  /** `(count / total) * 100`, or 0 when there is nothing to divide by. */
  function Percentage(count: nat, total: nat): (p: real)
    ensures total == 0 ==> p == 0.0
    ensures total > 0 ==> p * (total as real) == (count as real) * 100.0
    ensures 0.0 <= p
    ensures count <= total ==> p <= 100.0
  {
    if total > 0 then (count as real / total as real) * 100.0 else 0.0
  }

  /** A larger count over the same total never gives a smaller percentage. */
  lemma PercentageMonotone(a: nat, b: nat, total: nat)
    requires a <= b
    ensures Percentage(a, total) <= Percentage(b, total)
  {
    if total > 0 {
      var t := total as real;
      assert (b as real / t) - (a as real / t) == (b - a) as real / t;
    }
  }

  /** Percentages of the same total add up like their counts. */
  lemma PercentageAdditive(a: nat, b: nat, total: nat)
    ensures Percentage(a, total) + Percentage(b, total) == Percentage(a + b, total)
  {
    if total > 0 {
      var t := total as real;
      assert a as real / t + b as real / t == (a + b) as real / t;
    }
  }

  /** Nothing is 0 %. */
  lemma PercentageOfNothing(total: nat)
    ensures Percentage(0, total) == 0.0
  {
  }

  /** The whole is 100 %. */
  lemma PercentageOfWhole(total: nat)
    requires total > 0
    ensures Percentage(total, total) == 100.0
  {
  }

  /** Four counts that partition a non-empty total have shares adding up to 100 %. */
  lemma PercentagesOfFourParts(a: nat, b: nat, c: nat, d: nat, total: nat)
    requires a + b + c + d == total > 0
    ensures Percentage(a, total) + (Percentage(b, total) + (Percentage(c, total) + Percentage(d, total))) == 100.0
  {
    calc {
      Percentage(a, total) + (Percentage(b, total) + (Percentage(c, total) + Percentage(d, total)));
      { PercentageAdditive(c, d, total); }
      Percentage(a, total) + (Percentage(b, total) + Percentage(c + d, total));
      { PercentageAdditive(b, c + d, total); }
      Percentage(a, total) + Percentage(b + c + d, total);
      { PercentageAdditive(a, b + c + d, total); }
      Percentage(total, total);
      { PercentageOfWhole(total); }
      100.0;
    }
  }

  /** A share above 8 % is more than 2 in 25. */
  lemma PercentageAbove8(count: nat, total: nat)
    requires total > 0
    ensures Percentage(count, total) > 8.0 <==> 25 * count > 2 * total
  {
    var q := count as real / total as real;
    assert q * (total as real) == count as real;
    assert Percentage(count, total) == q * 100.0;
    if q * 100.0 > 8.0 {
      assert q > 0.08;
      assert q * (total as real) > 0.08 * (total as real);
      assert 25.0 * (count as real) > 2.0 * (total as real);
    } else {
      assert q <= 0.08;
      assert q * (total as real) <= 0.08 * (total as real);
      assert 25.0 * (count as real) <= 2.0 * (total as real);
    }
  }
}
