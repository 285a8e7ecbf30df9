/** The kitchen registration form (components/KitchenRegistrationForm.tsx). The installation date
    field is `None` while the date input is empty. */
module KitchenRegistration {
  import opened Wrappers
  import opened Domain
  import Loader

  /** `handleSubmit`: rejected (`None`) without a directory author or with any field empty;
      otherwise the kitchen is registered under the author's LDAP with every field as typed. */
  function KitchenSubmission(authorLdap: string, orderNumber: string, clientName: string, seller: string,
                             installer: string, installationDate: Option<Date>): (r: Option<KitchenDraft>)
    ensures r.None? <==> authorLdap !in USER_LDAP_MAP || orderNumber == [] || clientName == []
                         || seller == [] || installer == [] || installationDate.None?
    ensures r.Some? ==> r.value.ldap == authorLdap && r.value.orderNumber == orderNumber
                        && r.value.clientName == clientName && r.value.seller == seller
                        && r.value.installer == installer && r.value.installationDate == installationDate.value
  {
    DirectoryLdapsNonEmpty();
    if authorLdap == [] || Lookup(authorLdap).None? then None
    else if orderNumber == [] || clientName == [] || seller == [] || installer == [] || installationDate.None? then None
    else Some(KitchenDraft(authorLdap, orderNumber, clientName, seller, installer, installationDate.value))
  }

  /** A kitchen a Vendedor registers under their own name is one of the kitchens their summary row
      counts once the root has stored it. */
  lemma VendedorKitchenCountsForThem(authorLdap: string, orderNumber: string, clientName: string, seller: string,
                                     installer: string, installationDate: Option<Date>, id: string, others: seq<Kitchen>)
    requires IsSellerUser(Lookup(authorLdap)) && seller == USER_LDAP_MAP[authorLdap].name
    requires KitchenSubmission(authorLdap, orderNumber, clientName, seller, installer, installationDate).Some?
    ensures var k := Loader.Registered(id, KitchenSubmission(authorLdap, orderNumber, clientName, seller, installer, installationDate).value);
      k in KitchensFor(others + [k], SellerRole, USER_LDAP_MAP[authorLdap].name)
  {
    var k := Loader.Registered(id, KitchenSubmission(authorLdap, orderNumber, clientName, seller, installer, installationDate).value);
    assert (others + [k])[|others|] == k;
  }

  class KitchenForm {
    var authorLdap: string
    var orderNumber: string
    var clientName: string
    var seller: string
    var installer: string
    var installationDate: Option<Date>

    /** While the author is a Vendedor the seller is that author (the seller select is locked). */
    predicate Valid()
      reads this
    {
      IsSellerUser(Lookup(authorLdap)) ==> seller == USER_LDAP_MAP[authorLdap].name
    }

    /** Empty author and order fields, the first seller and installer, and today's date. */
    constructor (today: Date)
      ensures Valid()
      ensures authorLdap == [] && orderNumber == [] && clientName == []
      ensures seller == SELLERS[0] && installer == INSTALLERS[0] && installationDate == Some(today)
    {
      authorLdap, orderNumber, clientName := [], [], [];
      seller, installer, installationDate := SELLERS[0], INSTALLERS[0], Some(today);
    }

    /** Typing the LDAP, followed by the effect on `authorData`: a newly resolved Vendedor forces
        the seller to their own name. */
    method SetAuthorLdap(ldap: string)
      requires Valid()
      modifies this
      ensures Valid()
      ensures authorLdap == ldap
      ensures Lookup(ldap) != Lookup(old(authorLdap)) && IsSellerUser(Lookup(ldap)) ==> seller == USER_LDAP_MAP[ldap].name
      ensures !(Lookup(ldap) != Lookup(old(authorLdap)) && IsSellerUser(Lookup(ldap))) ==> seller == old(seller)
      ensures orderNumber == old(orderNumber) && clientName == old(clientName)
      ensures installer == old(installer) && installationDate == old(installationDate)
    {
      var before := Lookup(authorLdap);
      authorLdap := ldap;
      var user := Lookup(authorLdap);
      if user != before && IsSellerUser(user) {
        seller := user.value.name;
      }
    }

    /** The seller select, which is disabled (and so ignored) while the author is a Vendedor. */
    method SetSeller(s: string)
      requires Valid()
      modifies this
      ensures Valid()
      ensures seller == if IsSellerUser(Lookup(authorLdap)) then old(seller) else s
      ensures authorLdap == old(authorLdap) && orderNumber == old(orderNumber) && clientName == old(clientName)
      ensures installer == old(installer) && installationDate == old(installationDate)
    {
      if !IsSellerUser(Lookup(authorLdap)) {
        seller := s;
      }
    }

    method SetOrderNumber(s: string)
      requires Valid()
      modifies this
      ensures Valid()
      ensures orderNumber == s
      ensures authorLdap == old(authorLdap) && clientName == old(clientName) && seller == old(seller)
      ensures installer == old(installer) && installationDate == old(installationDate)
    {
      orderNumber := s;
    }

    method SetClientName(s: string)
      requires Valid()
      modifies this
      ensures Valid()
      ensures clientName == s
      ensures authorLdap == old(authorLdap) && orderNumber == old(orderNumber) && seller == old(seller)
      ensures installer == old(installer) && installationDate == old(installationDate)
    {
      clientName := s;
    }

    method SetInstaller(s: string)
      requires Valid()
      modifies this
      ensures Valid()
      ensures installer == s
      ensures authorLdap == old(authorLdap) && orderNumber == old(orderNumber) && clientName == old(clientName)
      ensures seller == old(seller) && installationDate == old(installationDate)
    {
      installer := s;
    }

    method SetInstallationDate(d: Option<Date>)
      requires Valid()
      modifies this
      ensures Valid()
      ensures installationDate == d
      ensures authorLdap == old(authorLdap) && orderNumber == old(orderNumber) && clientName == old(clientName)
      ensures seller == old(seller) && installer == old(installer)
    {
      installationDate := d;
    }

    /** `handleSubmit`: emits the kitchen `KitchenSubmission` builds; a Vendedor author's kitchen is
        always registered under their own name. On success the order number and client are cleared
        while the author, professionals and date are kept; a rejected submission changes nothing. */
    method Submit() returns (k: Option<KitchenDraft>)
      requires Valid()
      modifies this
      ensures Valid()
      ensures k == KitchenSubmission(old(authorLdap), old(orderNumber), old(clientName), old(seller),
                                     old(installer), old(installationDate))
      ensures k.Some? && IsSellerUser(Lookup(k.value.ldap)) ==> k.value.seller == USER_LDAP_MAP[k.value.ldap].name
      ensures k.Some? ==> orderNumber == [] && clientName == []
      ensures k.None? ==> orderNumber == old(orderNumber) && clientName == old(clientName)
      ensures authorLdap == old(authorLdap) && seller == old(seller)
      ensures installer == old(installer) && installationDate == old(installationDate)
    {
      k := KitchenSubmission(authorLdap, orderNumber, clientName, seller, installer, installationDate);
      if k.Some? {
        orderNumber, clientName := [], [];
      }
    }
  }
}
