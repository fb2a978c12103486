/** The module functions of the registrar as functions of the reply script:
    each builds a fresh client (empty caches, no calls), runs the client
    operations of `ClientModel` in the order the module function calls them,
    and yields the calls made and the result array handed back to WHMCS.
    `Registrar` proves its methods against these functions. */
module RegistrarModel {
  import opened Php
  import M = ClientModel
  import opened Reconcile

  /** `$params['domainname']` in a string context. */
  function DomainName(params: Value): string {
    StrVal(Get(params, "domainname"))
  }

  /** `[$params['ns1'], $params['ns2'], $params['ns3']]`. */
  function NameserverParams(params: Value): seq<Value> {
    [Get(params, "ns1"), Get(params, "ns2"), Get(params, "ns3")]
  }

  // ---------------------------------------------------------------------
  // Register and transfer

  /** What a registration takes from its parameters: the holder to find, the
      holder to create, the domain, the term, the given nameservers and the
      contact name for the error message. */
  datatype Registration = Registration(identity: Value, holder: Entries, domain: string, years: Value, nameservers: Entries, contact: string)

  function RegistrationOf(params: Value): Registration {
    Registration(RegistrationIdentity(params), RegistrationHolder(params), DomainName(params), Get(params, "regperiod"),
                 Filtered(NameserverParams(params)), StrVal(Get(params, "firstname")) + " " + StrVal(Get(params, "lastname")))
  }

  /** The holder id of a registration: a holder with the same identity, or a
      newly created one with the phone number and the country code. */
  function RegistrationHolderId(e: M.Env, reg: Registration): M.Out<Value> {
    var f := M.FindHolderId(e, M.Fresh, reg.identity);
    if Truthy(f.val) then f else M.CreateHolder(e, f.st, reg.holder)
  }

  /** `neostrada_RegisterDomain` (action 'register') and
      `neostrada_TransferDomain` (action 'transfer'): the filtered nameserver
      list goes to `order` as its auth code, and the transfer secret is not
      passed on at all. */
  function HolderThenOrder(e: M.Env, reg: Registration, action: string): M.Out<Value> {
    var h := RegistrationHolderId(e, reg);
    if !Truthy(h.val) then M.Out(h.st, ErrorResult("Could not create contact '" + reg.contact + "'"))
    else
      var o := M.Order(e, h.st, reg.domain, h.val, reg.years, Arr(reg.nameservers));
      M.Out(o.st, if o.val then SuccessResult else ErrorResult("Could not " + action + " domain '" + reg.domain + "'"))
  }

  function RegisterDomain(e: M.Env, params: Value): M.Out<Value> {
    HolderThenOrder(e, RegistrationOf(params), "register")
  }

  function TransferDomain(e: M.Env, params: Value): M.Out<Value> {
    HolderThenOrder(e, RegistrationOf(params), "transfer")
  }

  /** A transfer makes the very calls a registration makes, and the
      parameters it reads (`RegistrationOf`) do not include the transfer
      secret: only the error message differs. */
  lemma TransferIsRegistration(e: M.Env, params: Value)
    ensures TransferDomain(e, params).st == RegisterDomain(e, params).st
  {
  }

  /** The nameservers reach `order` as its auth code: the order payload
      carries `authcode` exactly when one of ns1..ns3 is given, and then it is
      the list of the given ones. */
  lemma NameserversBecomeAuthCode(extension: Value, domain: string, holderId: Value, year: Value, params: Value)
    ensures var ns := NameserverParams(params);
      var p := M.OrderPayload(extension, domain, holderId, year, Arr(Filtered(ns)));
      && (SKey("authcode") in KeysOf(p) <==> exists i :: 0 <= i < 3 && Truthy(ns[i]))
      && (SKey("authcode") in KeysOf(p) ==> Lookup(p, SKey("authcode")) == Arr(Filtered(ns)))
  {
  }

  /** The holder created for a registration is one `findHolderId` matches by
      its seven identity fields. */
  lemma RegistrationHolderMatches(params: Value)
    ensures M.Identity(Arr(RegistrationHolder(params))) == RegistrationIdentity(params)
  {
    IdentityPrefix(RegistrationIdentity(params).entries, RegistrationHolder(params)[7..]);
    assert RegistrationIdentity(params).entries + RegistrationHolder(params)[7..] == RegistrationHolder(params);
  }

  // ---------------------------------------------------------------------
  // Nameservers

  /** `neostrada_GetNameservers`. */
  function GetNameservers(e: M.Env, params: Value): M.Out<Value> {
    var o := M.GetNameservers(e, M.Fresh, DomainName(params));
    M.Out(o.st, NameserversResult(o.val))
  }

  /** A fetched list of nameservers comes back as ns1 .. nsn in list order. */
  lemma GetNameserversSlots(e: M.Env, params: Value)
    ensures var o := M.GetNameservers(e, M.Fresh, DomainName(params));
      var r := GetNameservers(e, params).val;
      && (o.val == Null ==> r == ErrorResult("Could not get nameservers"))
      && (o.val != Null && Empty(o.val) ==> r == SuccessResult)
      && (o.val.Arr? && o.val.entries != [] && (forall i :: 0 <= i < |o.val.entries| ==> o.val.entries[i].0 == IKey(i)) ==>
            && |r.entries| == |o.val.entries|
            && forall i :: 0 <= i < |r.entries| ==>
                 r.entries[i] == (SKey("ns" + NatToString(i + 1)), Get(o.val.entries[i].1, "content")))
  {
    var o := M.GetNameservers(e, M.Fresh, DomainName(params));
    if o.val.Arr? && forall i :: 0 <= i < |o.val.entries| ==> o.val.entries[i].0 == IKey(i) {
      SlotsOfList(o.val.entries);
    }
  }

  /** `neostrada_SaveNameservers`: the current nameservers are deleted and the
      given ones added; the outcome is that of the add. */
  function SaveNameservers(e: M.Env, params: Value): M.Out<Value> {
    var ns := Filtered(NameserverParams(params));
    if ns == [] then M.Out(M.Fresh, ErrorResult("Could not save nameservers"))
    else
      var domain := DomainName(params);
      var d := M.DeleteCurrentNameservers(e, M.Fresh, domain);
      var a := M.AddNameservers(e, d.st, domain, Arr(ns));
      M.Out(a.st, if a.val then SuccessResult else ErrorResult("Could not save nameservers"))
  }

  /** Without any nameserver nothing is sent; a reported success means the
      add went through, whatever became of the delete. */
  lemma SaveNameserversOutcome(e: M.Env, params: Value)
    ensures (forall i :: 0 <= i < 3 ==> Empty(NameserverParams(params)[i])) ==>
      SaveNameservers(e, params) == M.Out(M.Fresh, ErrorResult("Could not save nameservers"))
    ensures SaveNameservers(e, params).val == SuccessResult ==>
      var d := M.DeleteCurrentNameservers(e, M.Fresh, DomainName(params));
      M.AddNameservers(e, d.st, DomainName(params), Arr(Filtered(NameserverParams(params)))).val
  {
  }

  // ---------------------------------------------------------------------
  // Contacts

  /** `getUsableContact`: when the account has holders, the contact is run
      through the name and phone heuristic, one holder after the other. */
  function UsableContact(e: M.Env, s: M.State, contact: Value): M.Out<Value> {
    var o := M.GetHolders(e, s, false);
    if Truthy(o.val) then M.Out(o.st, ScanAll(ScanStart(contact), ValuesOf(o.val)).contact)
    else M.Out(o.st, contact)
  }

  /** Only the names and the phone number of a contact are touched: every
      other field is returned as it came. */
  lemma {:induction false} UsableContactKeepsFields(e: M.Env, s: M.State, contact: Value)
    ensures forall n :: n != "firstname" && n != "lastname" && n != "phone" ==>
      Get(UsableContact(e, s, contact).val, n) == Get(contact, n)
  {
    var o := M.GetHolders(e, s, false);
    if Truthy(o.val) {
      ScanKeepsFields(ScanStart(contact), ValuesOf(o.val));
    }
  }

  lemma {:induction false} ScanKeepsFields(start: Scan, holders: seq<Value>)
    ensures forall n :: n != "firstname" && n != "lastname" && n != "phone" ==>
      Get(ScanAll(start, holders).contact, n) == Get(start.contact, n)
  {
    if holders != [] {
      ScanKeepsFields(start, holders[..|holders| - 1]);
      ScanStepFields(ScanAll(start, holders[..|holders| - 1]), holders[|holders| - 1]);
    }
  }

  /** One WHMCS contact block. */
  function ContactBlock(c: Value): Value {
    Arr([(SKey("First Name"), Get(c, "firstname")),
         (SKey("Last Name"), Get(c, "lastname")),
         (SKey("Company Name"), Get(c, "company")),
         (SKey("Email Address"), Get(c, "email")),
         (SKey("Address 1"), Get(c, "street")),
         (SKey("City"), Get(c, "city")),
         (SKey("Postcode"), Get(c, "zipcode")),
         (SKey("Country"), Get(c, "country_code")),
         (SKey("Phone Number"), Get(c, "phone"))])
  }

  function ContactDetails(registrant: Value, tech: Value, admin: Value): Value {
    Arr([(SKey("Registrant"), ContactBlock(registrant)),
         (SKey("Technical"), ContactBlock(tech)),
         (SKey("Admin"), ContactBlock(admin))])
  }

  /** `neostrada_GetContactDetails`. */
  function GetContactDetails(e: M.Env, params: Value): M.Out<Value> {
    var d := M.GetDomain(e, M.Fresh, DomainName(params));
    if !Truthy(d.val) then M.Out(d.st, ErrorResult("Could not get contact details"))
    else
      var r := UsableContact(e, d.st, Get(d.val, "registrant"));
      var t := UsableContact(e, r.st, Get(d.val, "tech"));
      var a := UsableContact(e, t.st, Get(d.val, "admin"));
      M.Out(a.st, ContactDetails(r.val, t.val, a.val))
  }

  /** The client's holder cache at work: when the first fetch of the holders
      yields a list, the three contacts cost that one request after the domain
      lookup; otherwise each contact fetches the holders again, so at most
      three requests follow; a failed lookup sends nothing more. */
  lemma ContactDetailsFetchHoldersOnce(e: M.Env, params: Value)
    ensures var d := M.GetDomain(e, M.Fresh, DomainName(params));
      var h := M.GetHolders(e, d.st, false);
      Truthy(d.val) && Truthy(h.val) ==> GetContactDetails(e, params).st.log == d.st.log + [M.ApiCall("get", [Str("holders")])]
    ensures var d := M.GetDomain(e, M.Fresh, DomainName(params));
      |GetContactDetails(e, params).st.log| <= |d.st.log| + 3
    ensures var d := M.GetDomain(e, M.Fresh, DomainName(params));
      !Truthy(d.val) ==> GetContactDetails(e, params).st == d.st
  {
    var d := M.GetDomain(e, M.Fresh, DomainName(params));
    var h := M.GetHolders(e, d.st, false);
    if Truthy(d.val) && Truthy(h.val) {
      M.CachesServeRepeats(e, d.st, false);
      var r := UsableContact(e, d.st, Get(d.val, "registrant"));
      assert r.st == h.st;
      var t := UsableContact(e, r.st, Get(d.val, "tech"));
      assert t.st == h.st;
      var a := UsableContact(e, t.st, Get(d.val, "admin"));
      assert a.st == h.st;
    }
  }

  /** `getOrCreateHolder`: the matching holder's id, else the id of a newly
      created holder, else the (empty) result of the search. */
  function GetOrCreateHolder(e: M.Env, s: M.State, w: Value): M.Out<Value> {
    var f := M.FindHolderId(e, s, WhmcsIdentity(w));
    if Truthy(f.val) then f
    else
      var c := M.CreateHolder(e, f.st, CreationHolder(w));
      M.Out(c.st, if Truthy(c.val) then c.val else f.val)
  }

  /** A match creates nothing; otherwise the holder created is one the next
      search matches, with the phone number after its first dot. */
  lemma GetOrCreateHolderCreates(e: M.Env, s: M.State, w: Value)
    ensures var f := M.FindHolderId(e, s, WhmcsIdentity(w));
      Truthy(f.val) ==> GetOrCreateHolder(e, s, w) == f
    ensures M.Identity(Arr(CreationHolder(w))) == WhmcsIdentity(w)
    ensures Lookup(CreationHolder(w), SKey("phone_number")) == PhoneAfterDot(Get(w, "Phone Number"))
  {
    var h := CreationHolder(w);
    IdentityPrefix(WhmcsIdentity(w).entries, h[7..]);
    assert WhmcsIdentity(w).entries + h[7..] == h;
    LookupFindsEntry(h, 7);
  }

  /** The new holders of a domain, under the key 'registrar' for the registrant. */
  function DomainHolders(registrant: Value, tech: Value, admin: Value): Value {
    Arr([(SKey("registrar"), registrant), (SKey("tech"), tech), (SKey("admin"), admin)])
  }

  /** `neostrada_SaveContactDetails`. */
  function SaveContactDetails(e: M.Env, params: Value): M.Out<Value> {
    var details := Get(params, "contactdetails");
    var r := GetOrCreateHolder(e, M.Fresh, Get(details, "Registrant"));
    var t := GetOrCreateHolder(e, r.st, Get(details, "Technical"));
    var a := GetOrCreateHolder(e, t.st, Get(details, "Admin"));
    var u := if Truthy(r.val) && Truthy(t.val) && Truthy(a.val)
      then M.UpdateDomainHolders(e, a.st, DomainName(params), DomainHolders(r.val, t.val, a.val))
      else M.Out(a.st, false);
    M.Out(u.st, if u.val then SuccessResult else ErrorResult("Could not change contact for domain"))
  }

  /** The domain is only updated, and success only reported, when all three
      holders were found or created. */
  lemma SaveContactDetailsNeedsAllHolders(e: M.Env, params: Value)
    ensures var details := Get(params, "contactdetails");
      var r := GetOrCreateHolder(e, M.Fresh, Get(details, "Registrant"));
      var t := GetOrCreateHolder(e, r.st, Get(details, "Technical"));
      var a := GetOrCreateHolder(e, t.st, Get(details, "Admin"));
      && (SaveContactDetails(e, params).val == SuccessResult ==> Truthy(r.val) && Truthy(t.val) && Truthy(a.val))
      && (!(Truthy(r.val) && Truthy(t.val) && Truthy(a.val)) ==> SaveContactDetails(e, params).st == a.st)
  {
  }

  // ---------------------------------------------------------------------
  // DNS

  /** `neostrada_GetDNS`. */
  function GetDns(e: M.Env, params: Value): M.Out<Value> {
    var o := M.GetDnsRecords(e, M.Fresh, DomainName(params), M.DefaultExclude);
    M.Out(o.st, DnsResult(o.val))
  }

  /** The delete set of a save: every record id the API has, when it has any. */
  function SaveSeed(remote: Value): Entries {
    if Truthy(remote) then DeleteSeed(ValuesOf(remote)) else []
  }

  /** `neostrada_SaveDNS`: the delete batch, then the update batch, then the
      add batch, each only when it is not empty; success is always reported. */
  function SaveDns(e: M.Env, params: Value): M.Out<Value> {
    var domain := DomainName(params);
    var r := M.GetDnsRecords(e, M.Fresh, domain, M.DefaultExclude);
    var b := Diff(SaveSeed(r.val), ValuesOf(Get(params, "dnsrecords")));
    var s1 := if b.deletes != [] then M.DeleteDnsRecords(e, r.st, domain, b.deletes).st else r.st;
    var s2 := if b.updates != [] then M.UpdateDnsRecords(e, s1, domain, ListOf(b.updates)).st else s1;
    var s3 := if b.adds != [] then M.AddDnsRecords(e, s2, domain, ListOf(b.adds)).st else s2;
    M.Out(s3, SuccessResult)
  }

  /** With no remote records and no desired record that updates or adds,
      a save sends nothing after the fetch. */
  lemma {:induction false} SaveDnsNothingToDo(e: M.Env, params: Value)
    requires var desired := ValuesOf(Get(params, "dnsrecords"));
      forall i :: 0 <= i < |desired| ==> !Updates(desired[i]) && !Adds(desired[i])
    ensures var r := M.GetDnsRecords(e, M.Fresh, DomainName(params), M.DefaultExclude);
      !Truthy(r.val) ==> SaveDns(e, params).st == r.st
  {
    var desired := ValuesOf(Get(params, "dnsrecords"));
    DiffOps([], desired);
    DiffDeletes([], desired);
    NoOps(desired);
  }

  lemma {:induction false} NoOps(desired: seq<Value>)
    requires forall i :: 0 <= i < |desired| ==> !Updates(desired[i]) && !Adds(desired[i])
    ensures UpdatesOf(desired) == [] && AddsOf(desired) == [] && RemovedKeys(desired) == {}
  {
    if desired != [] {
      NoOps(desired[1..]);
    }
  }

  /** Saving back the records `neostrada_GetDNS` listed deletes every
      remote record that has a non-empty id, although each is also updated. */
  lemma ResavedRecordsAreDeleted(remote: seq<Value>)
    ensures var rows := seq(|remote|, i requires 0 <= i < |remote| => WhmcsRow(remote[i]));
      var deletes := Diff(DeleteSeed(remote), rows).deletes;
      forall i :: 0 <= i < |remote| && IdKey(remote[i]) != SKey("") ==> IdKey(remote[i]) in KeysOf(deletes)
  {
    var rows := seq(|remote|, i requires 0 <= i < |remote| => WhmcsRow(remote[i]));
    ResavedRecordsStayDeleted(DeleteSeed(remote), remote);
    DeleteSeedKeys(remote);
    forall i | 0 <= i < |remote| && IdKey(remote[i]) != SKey("")
      ensures IdKey(remote[i]) in KeysOf(Diff(DeleteSeed(remote), rows).deletes)
    {
      assert IdKey(remote[i]) in IdKeys(remote);
    }
  }

  // ---------------------------------------------------------------------
  // EPP code and deletion

  /** `neostrada_GetEPPCode` (its error message is kept as written). */
  function GetEppCode(e: M.Env, params: Value): M.Out<Value> {
    var d := M.GetDomain(e, M.Fresh, DomainName(params));
    M.Out(d.st, if Truthy(d.val) && IsSet(d.val, "auth_code") then Arr([(SKey("eppcode"), Get(d.val, "auth_code"))])
                else ErrorResult("Could not fetch EPP ode"))
  }

  /** `neostrada_RequestDelete`. */
  function RequestDelete(e: M.Env, params: Value): M.Out<Value> {
    var d := M.DeleteDomain(e, M.Fresh, DomainName(params));
    M.Out(d.st, if d.val then SuccessResult else ErrorResult("Could not delete domain"))
  }

  /** Each makes exactly one request, for the domain named in the parameters. */
  lemma SingleRequests(e: M.Env, params: Value)
    ensures GetEppCode(e, params).st.log == [M.ApiCall("get", [Str("domain/" + DomainName(params))])]
    ensures RequestDelete(e, params).st.log == [M.ApiCall("delete", [Str("domain/delete/" + DomainName(params))])]
  {
  }

  // ---------------------------------------------------------------------
  // Sync

  /** The report of a sync: a past expiry forces the domain inactive and expired. */
  function Report(expiry: Expiry, active: bool, now: int): Value {
    var past := expiry.at < now;
    SyncReport(expiry, active && !past, past)
  }

  /** `neostrada_Sync`. The WHMCS domain details, the `paid_until` parser,
      the current time and the outcome of reactivating the domain are given. */
  function Sync(e: M.Env, params: Value, details: Value, parse: string -> Option<Expiry>, now: int, reactivated: bool): M.Out<Value> {
    var domain := StrVal(Get(params, "domain"));
    if Empty(details) then M.Out(M.Fresh, ErrorResult("Could not get domain details for " + domain))
    else
      var autoRenew := LooseZero(Get(details, "donotrenew"));
      var d := M.GetDomain(e, M.Fresh, domain);
      var expiry := if Truthy(d.val) then parse(StrVal(Get(d.val, "paid_until"))) else None;
      if expiry.None? then M.Out(d.st, ErrorResult("Could not sync domain " + domain))
      else
        var active := Get(d.val, "status") == Str("active");
        match RenewalAction(autoRenew, active)
        case Cancel =>
          var x := M.DeleteDomain(e, d.st, domain);
          if !x.val then M.Out(x.st, ErrorResult("Could not deactivate auto renewal for " + domain))
          else M.Out(x.st, Report(expiry.value, false, now))
        case Reactivate =>
          if !reactivated then M.Out(d.st, ErrorResult("Could not activate auto renewal for " + domain))
          else M.Out(d.st, Report(expiry.value, true, now))
        case Keep => M.Out(d.st, Report(expiry.value, active, now))
  }

  /** The decision table of a sync that reaches the report: the domain ends
      active exactly when auto-renew is on and the expiry has not passed,
      expired exactly when the expiry has passed, and never transferred away;
      only cancelling an active domain sends a request after the lookup. */
  lemma SyncDecisions(e: M.Env, params: Value, details: Value, parse: string -> Option<Expiry>, now: int, reactivated: bool)
    requires Truthy(details)
    ensures var domain := StrVal(Get(params, "domain"));
      var d := M.GetDomain(e, M.Fresh, domain);
      var autoRenew := LooseZero(Get(details, "donotrenew"));
      var o := Sync(e, params, details, parse, now, reactivated);
      Truthy(d.val) && parse(StrVal(Get(d.val, "paid_until"))).Some? ==>
        var expiry := parse(StrVal(Get(d.val, "paid_until"))).value;
        var action := RenewalAction(autoRenew, Get(d.val, "status") == Str("active"));
        && (action == Cancel ==> o.st.log == d.st.log + [M.ApiCall("delete", [Str("domain/delete/" + domain)])])
        && (action != Cancel ==> o.st == d.st)
        && (action == Keep || (action == Reactivate && reactivated) || (action == Cancel && M.DeleteDomain(e, d.st, domain).val) ==>
              o.val == SyncReport(expiry, autoRenew && !(expiry.at < now), expiry.at < now))
  {
  }

  /** `neostrada_TransferSync`: a transfer is reported complete as soon as
      the domain and its expiry can be read. */
  function TransferSync(e: M.Env, params: Value, parse: string -> Option<Expiry>): M.Out<Value> {
    var d := M.GetDomain(e, M.Fresh, StrVal(Get(params, "domain")));
    var expiry := if Truthy(d.val) then parse(StrVal(Get(d.val, "paid_until"))) else None;
    M.Out(d.st, if expiry.Some? then Arr([(SKey("completed"), Bool(true)), (SKey("expirydate"), Str(expiry.value.day))]) else Arr([]))
  }
}
