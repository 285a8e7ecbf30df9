/** The incident registration form (components/IncidentRegistrationForm.tsx): a record of form fields
    that the handlers update, the author and kitchen searches, and the submission that builds a new
    incident. */
module IncidentRegistration {
  import opened Wrappers
  import opened Seqs
  import opened Text
  import opened Domain
  import Loader

  /** A directory record's lower-cased name, or its LDAP, contains the lower-cased search text. */
  predicate DirectoryMatch(e: (string, User), search: string, lower: string -> string) {
    Contains(lower(e.1.name), lower(search)) || Contains(e.0, lower(search))
  }

  /** `ldapSearchResults`: nothing for fewer than two typed characters; otherwise the directory
      records, in enumeration order, that match the search text. */
  function LdapSearchResults(search: string, lower: string -> string): (r: seq<(string, User)>)
    ensures |search| < 2 ==> r == []
    ensures IsSubsequence(r, DIRECTORY_ENTRIES)
    ensures forall i :: 0 <= i < |r| ==> r[i].0 in USER_LDAP_MAP && USER_LDAP_MAP[r[i].0] == r[i].1
    ensures forall i :: 0 <= i < |r| ==> DirectoryMatch(r[i], search, lower)
    ensures |search| >= 2 ==> forall l :: l in USER_LDAP_MAP && DirectoryMatch((l, USER_LDAP_MAP[l]), search, lower) ==>
      (l, USER_LDAP_MAP[l]) in r
  {
    DirectoryEntriesEnumerateMap();
    if |search| < 2 then []
    else
      var r := Filter(DIRECTORY_ENTRIES, (e: (string, User)) => DirectoryMatch(e, search, lower));
      assert forall l :: l in USER_LDAP_MAP ==> (l, USER_LDAP_MAP[l]) in DIRECTORY_ENTRIES;
      r
  }

  /** The fields the kitchen search looks at: order number, client and LDAP. */
  predicate KitchenMatch(k: Kitchen, q: string, lower: string -> string) {
    Contains(lower(k.orderNumber), q) || Contains(lower(k.clientName), q) || Contains(lower(k.ldap), q)
  }

  /** `filteredResults`: nothing while the trimmed query is shorter than two characters; otherwise
      the first ten kitchens (a prefix of all the matches, in order) matching the lower-cased (untrimmed) query. */
  function KitchenSearch(kitchens: seq<Kitchen>, query: string, lower: string -> string): (r: seq<Kitchen>)
    ensures |Trim(query)| < 2 ==> r == []
    ensures |r| <= 10
    ensures IsSubsequence(r, kitchens)
    ensures forall i :: 0 <= i < |r| ==> KitchenMatch(r[i], lower(query), lower)
    ensures |Trim(query)| >= 2 ==>
              |r| == if Count(kitchens, (k: Kitchen) => KitchenMatch(k, lower(query), lower)) < 10
                     then Count(kitchens, (k: Kitchen) => KitchenMatch(k, lower(query), lower)) else 10
    ensures |Trim(query)| >= 2 ==> r == Filter(kitchens, (k: Kitchen) => KitchenMatch(k, lower(query), lower))[..|r|]
    ensures |Trim(query)| >= 2 && |r| < 10 ==>
              forall i :: 0 <= i < |kitchens| && KitchenMatch(kitchens[i], lower(query), lower) ==> kitchens[i] in r
  {
    if |Trim(query)| < 2 then []
    else
      var all := Filter(kitchens, (k: Kitchen) => KitchenMatch(k, lower(query), lower));
      if |all| <= 10 then all
      else
        PrefixIsSubsequence(all, kitchens, 10);
        all[..10]
  }

  /** `handleSubmit`: rejected (`None`) without a directory author, without a selected kitchen or
      with an empty (untrimmed) description; otherwise a Pending incident storing the trimmed
      observation, whose history is one authored Pending entry exactly when that observation is
      non-empty, and which names a seller (resp. installer) only when the cause blames that role,
      falling back to the kitchen's own professional. */
  function SubmitIncident(authorLdap: string, selectedKitchen: Option<Kitchen>, description: string,
                          observation: string, cause: Cause, assignedToSeller: Option<string>,
                          assignedToInstaller: Option<string>, now: int): (r: Option<IncidentDraft>)
    ensures r.None? <==> authorLdap !in USER_LDAP_MAP || selectedKitchen.None? || description == []
    ensures r.Some? ==> r.value.kitchenId == selectedKitchen.value.id && r.value.description == description
    ensures r.Some? ==> r.value.status == Pending && r.value.cause == cause && r.value.observation == Trim(observation)
    ensures r.Some? ==> (r.value.history == [] <==> Trim(observation) == [])
    ensures r.Some? && Trim(observation) != [] ==>
              r.value.history == [Entry(Trim(observation), now, Pending, Some(authorLdap), Some(USER_LDAP_MAP[authorLdap].name))]
    ensures r.Some? ==> (r.value.assignedToSeller.Some? <==> cause == SellerCause)
    ensures r.Some? && cause == SellerCause ==>
              r.value.assignedToSeller == if Truthy(assignedToSeller) then assignedToSeller else Some(selectedKitchen.value.seller)
    ensures r.Some? ==> (r.value.assignedToInstaller.Some? <==> cause == InstallerCause)
    ensures r.Some? && cause == InstallerCause ==>
              r.value.assignedToInstaller == if Truthy(assignedToInstaller) then assignedToInstaller else Some(selectedKitchen.value.installer)
  {
    DirectoryLdapsNonEmpty();
    if authorLdap == [] || Lookup(authorLdap).None? then None
    else if selectedKitchen.None? || description == [] then None
    else
      var author := Lookup(authorLdap).value;
      var note := Trim(observation);
      var history := if note != [] then [Entry(note, now, Pending, Some(authorLdap), Some(author.name))] else [];
      var kitchen := selectedKitchen.value;
      Some(IncidentDraft(
        kitchen.id, description, note, history, Pending,
        if cause == SellerCause then Some(if Truthy(assignedToSeller) then assignedToSeller.value else kitchen.seller) else None,
        if cause == InstallerCause then Some(if Truthy(assignedToInstaller) then assignedToInstaller.value else kitchen.installer) else None,
        cause))
  }

  /** A submitted incident is stored and loaded back with exactly the history the form built: its
      observation is empty only when its history is, so the loader never synthesises a legacy entry. */
  lemma SubmittedIncidentLoadsBack(authorLdap: string, selectedKitchen: Option<Kitchen>, description: string,
                                   observation: string, cause: Cause, assignedToSeller: Option<string>,
                                   assignedToInstaller: Option<string>, now: int, id: string, created: int, updated: int, later: int,
                                   parse: string -> Loader.Parsed, serialize: seq<Entry> -> string)
    requires SubmitIncident(authorLdap, selectedKitchen, description, observation, cause, assignedToSeller, assignedToInstaller, now).Some?
    requires var h := SubmitIncident(authorLdap, selectedKitchen, description, observation, cause, assignedToSeller, assignedToInstaller, now).value.history;
      !IsBlank(serialize(h)) && serialize(h) != "NULL" && parse(serialize(h)) == Loader.EntryList(h)
    ensures var d := SubmitIncident(authorLdap, selectedKitchen, description, observation, cause, assignedToSeller, assignedToInstaller, now).value;
      var loaded := Loader.Normalize(Loader.NewIncidentRow(id, created, updated, d, serialize), parse, later);
      Entries(loaded) == d.history && loaded.status == Pending && loaded.kitchenId == selectedKitchen.value.id
  {
    var d := SubmitIncident(authorLdap, selectedKitchen, description, observation, cause, assignedToSeller, assignedToInstaller, now).value;
    Loader.NewIncidentRoundTrip(id, created, updated, d, parse, serialize, later);
  }

  /** The role effect fires when the resolved author changes to a Vendedor. */
  predicate RoleEffectFires(before: string, after: string) {
    Lookup(after) != Lookup(before) && IsSellerUser(Lookup(after))
  }

  /** The form's state fields. */
  class IncidentForm {
    var authorLdap: string
    var ldapSearch: string
    var searchQuery: string
    var selectedKitchen: Option<Kitchen>
    var description: string
    var observation: string
    var cause: Cause
    var assignedToSeller: Option<string>
    var assignedToInstaller: Option<string>

    /** A selected kitchen is always the one whose order number is in the search box. */
    predicate Valid()
      reads this
    {
      selectedKitchen.Some? ==> searchQuery == selectedKitchen.value.orderNumber
    }

    /** The initial (and post-reset) state. */
    predicate IsEmptyForm()
      reads this
    {
      && authorLdap == [] && ldapSearch == [] && searchQuery == [] && selectedKitchen == None
      && description == [] && observation == [] && cause == Other
      && assignedToSeller == None && assignedToInstaller == None
    }

    constructor ()
      ensures Valid() && IsEmptyForm()
    {
      authorLdap, ldapSearch, searchQuery, selectedKitchen := [], [], [], None;
      description, observation, cause := [], [], Other;
      assignedToSeller, assignedToInstaller := None, None;
    }

    /** The effect on `authorData`: a newly resolved Vendedor author blames the seller and assigns
        the incident to themselves. */
    method RoleEffect(before: string)
      modifies this
      ensures RoleEffectFires(before, authorLdap) ==>
                cause == SellerCause && assignedToSeller == Some(USER_LDAP_MAP[authorLdap].name)
      ensures !RoleEffectFires(before, authorLdap) ==> cause == old(cause) && assignedToSeller == old(assignedToSeller)
      ensures authorLdap == old(authorLdap) && ldapSearch == old(ldapSearch) && searchQuery == old(searchQuery)
      ensures selectedKitchen == old(selectedKitchen) && description == old(description)
      ensures observation == old(observation) && assignedToInstaller == old(assignedToInstaller)
    {
      var user := Lookup(authorLdap);
      if user != Lookup(before) && IsSellerUser(user) {
        cause := SellerCause;
        assignedToSeller := Some(user.value.name);
      }
    }

    /** `handleSelectLdap`: picking a directory record sets both the author and the search text. */
    method SelectLdap(ldap: string)
      requires Valid()
      modifies this
      ensures Valid()
      ensures authorLdap == ldap && ldapSearch == ldap
      ensures RoleEffectFires(old(authorLdap), ldap) ==>
                cause == SellerCause && assignedToSeller == Some(USER_LDAP_MAP[ldap].name)
      ensures !RoleEffectFires(old(authorLdap), ldap) ==> cause == old(cause) && assignedToSeller == old(assignedToSeller)
      ensures searchQuery == old(searchQuery) && selectedKitchen == old(selectedKitchen) && description == old(description)
      ensures observation == old(observation) && assignedToInstaller == old(assignedToInstaller)
    {
      var before := authorLdap;
      authorLdap, ldapSearch := ldap, ldap;
      RoleEffect(before);
    }

    /** Typing in the author box: the author is the typed text when it is a directory LDAP and
        is cleared otherwise. */
    method TypeLdap(text: string)
      requires Valid()
      modifies this
      ensures Valid()
      ensures ldapSearch == text
      ensures authorLdap == if text in USER_LDAP_MAP then text else []
      ensures RoleEffectFires(old(authorLdap), authorLdap) ==>
                cause == SellerCause && assignedToSeller == Some(USER_LDAP_MAP[authorLdap].name)
      ensures !RoleEffectFires(old(authorLdap), authorLdap) ==> cause == old(cause) && assignedToSeller == old(assignedToSeller)
      ensures searchQuery == old(searchQuery) && selectedKitchen == old(selectedKitchen) && description == old(description)
      ensures observation == old(observation) && assignedToInstaller == old(assignedToInstaller)
    {
      var before := authorLdap;
      ldapSearch := text;
      if Lookup(text).Some? {
        authorLdap := text;
      } else if authorLdap != [] {
        authorLdap := [];
      }
      RoleEffect(before);
    }

    /** Typing in the kitchen box drops a selection the text no longer names. */
    method TypeQuery(text: string)
      requires Valid()
      modifies this
      ensures Valid()
      ensures searchQuery == text
      ensures selectedKitchen == if old(selectedKitchen).Some? && text != old(selectedKitchen).value.orderNumber
                                 then None else old(selectedKitchen)
      ensures authorLdap == old(authorLdap) && ldapSearch == old(ldapSearch) && description == old(description)
      ensures observation == old(observation) && cause == old(cause)
      ensures assignedToSeller == old(assignedToSeller) && assignedToInstaller == old(assignedToInstaller)
    {
      searchQuery := text;
      if selectedKitchen.Some? && text != selectedKitchen.value.orderNumber {
        selectedKitchen := None;
      }
    }

    /** `selectKitchen`: selects the kitchen and fills the seller and installer only where they are
        still unset. */
    method SelectKitchen(k: Kitchen)
      modifies this
      ensures Valid()
      ensures selectedKitchen == Some(k) && searchQuery == k.orderNumber
      ensures assignedToSeller == if Truthy(old(assignedToSeller)) then old(assignedToSeller) else Some(k.seller)
      ensures assignedToInstaller == if Truthy(old(assignedToInstaller)) then old(assignedToInstaller) else Some(k.installer)
      ensures authorLdap == old(authorLdap) && ldapSearch == old(ldapSearch) && description == old(description)
      ensures observation == old(observation) && cause == old(cause)
    {
      selectedKitchen := Some(k);
      searchQuery := k.orderNumber;
      if !Truthy(assignedToSeller) {
        assignedToSeller := Some(k.seller);
      }
      if !Truthy(assignedToInstaller) {
        assignedToInstaller := Some(k.installer);
      }
    }

    /** The effect on `initialKitchenId`: a form opened for a kitchen preselects it when it exists. */
    method Preselect(kitchens: seq<Kitchen>, initialKitchenId: Option<string>)
      requires Valid()
      modifies this
      ensures Valid()
      ensures Truthy(initialKitchenId) && FindKitchen(kitchens, initialKitchenId.value).Some? ==>
                selectedKitchen == FindKitchen(kitchens, initialKitchenId.value)
      ensures !(Truthy(initialKitchenId) && FindKitchen(kitchens, initialKitchenId.value).Some?) ==>
                selectedKitchen == old(selectedKitchen) && searchQuery == old(searchQuery)
                && assignedToSeller == old(assignedToSeller) && assignedToInstaller == old(assignedToInstaller)
      ensures authorLdap == old(authorLdap) && ldapSearch == old(ldapSearch) && description == old(description)
      ensures observation == old(observation) && cause == old(cause)
    {
      if Truthy(initialKitchenId) {
        var found := FindKitchen(kitchens, initialKitchenId.value);
        if found.Some? {
          SelectKitchen(found.value);
        }
      }
    }

    method SetDescription(text: string)
      requires Valid()
      modifies this
      ensures Valid()
      ensures description == text
      ensures authorLdap == old(authorLdap) && ldapSearch == old(ldapSearch) && searchQuery == old(searchQuery)
      ensures selectedKitchen == old(selectedKitchen) && observation == old(observation) && cause == old(cause)
      ensures assignedToSeller == old(assignedToSeller) && assignedToInstaller == old(assignedToInstaller)
    {
      description := text;
    }

    method SetObservation(text: string)
      requires Valid()
      modifies this
      ensures Valid()
      ensures observation == text
      ensures authorLdap == old(authorLdap) && ldapSearch == old(ldapSearch) && searchQuery == old(searchQuery)
      ensures selectedKitchen == old(selectedKitchen) && description == old(description) && cause == old(cause)
      ensures assignedToSeller == old(assignedToSeller) && assignedToInstaller == old(assignedToInstaller)
    {
      observation := text;
    }

    method SetCause(c: Cause)
      requires Valid()
      modifies this
      ensures Valid()
      ensures cause == c
      ensures authorLdap == old(authorLdap) && ldapSearch == old(ldapSearch) && searchQuery == old(searchQuery)
      ensures selectedKitchen == old(selectedKitchen) && description == old(description) && observation == old(observation)
      ensures assignedToSeller == old(assignedToSeller) && assignedToInstaller == old(assignedToInstaller)
    {
      cause := c;
    }

    /** `resetForm`. Clearing the author resolves it to nobody, so the role effect does not fire. */
    method ResetForm()
      modifies this
      ensures Valid() && IsEmptyForm()
    {
      var before := authorLdap;
      searchQuery, selectedKitchen, description, observation := [], None, [], [];
      authorLdap, ldapSearch, cause := [], [], Other;
      assignedToSeller, assignedToInstaller := None, None;
      RoleEffect(before);
    }

    /** `handleSubmit`: emits the incident `SubmitIncident` builds from the current fields and resets
        the form; a rejected submission changes nothing. The incident goes to the kitchen whose order
        number the search box shows. */
    method Submit(now: int) returns (d: Option<IncidentDraft>)
      requires Valid()
      modifies this
      ensures Valid()
      ensures d == SubmitIncident(old(authorLdap), old(selectedKitchen), old(description), old(observation),
                                  old(cause), old(assignedToSeller), old(assignedToInstaller), now)
      ensures d.Some? ==> d.value.kitchenId == old(selectedKitchen).value.id
                          && old(searchQuery) == old(selectedKitchen).value.orderNumber
      ensures d.Some? ==> IsEmptyForm()
      ensures d.None? ==> unchanged(this)
    {
      d := SubmitIncident(authorLdap, selectedKitchen, description, observation, cause,
                          assignedToSeller, assignedToInstaller, now);
      if d.Some? {
        ResetForm();
      }
    }
  }
}
