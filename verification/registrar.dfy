/** The module functions of the registrar, statement by statement: each
    makes a `Client` on the given transport, calls it as the PHP function
    does, and builds the result array with the same branches and loops. Each
    is proved to put on the wire exactly the requests of the calls the
    matching `RegistrarModel` function lists, and to return its result. */
module Registrar {
  import opened Php
  import opened Wire
  import M = ClientModel
  import opened Reconcile
  import F = RegistrarModel
  import N = Neostrada

  /** `$params['key']`, the API key a module function makes its client with. */
  function ApiKey(params: Value): string {
    StrVal(Get(params, "key"))
  }

  /** The replies a module function sees: those of the transport after the
      requests already made. */
  function EnvFor(params: Value, script: seq<Response>, before: seq<Request>): M.Env {
    M.Env(ApiKey(params), script, |before|)
  }

  /** The wire went from `before` to `after` by the requests of the calls `o`
      lists, and `rc` is the result `o` computes. */
  ghost predicate Answered(o: M.Out<Value>, key: string, before: seq<Request>, after: seq<Request>, rc: Value) {
    after == before + M.Requests(key, o.st.log) && rc == o.val
  }

  // ---------------------------------------------------------------------
  // Helpers over a client

  /** `getUsableContact`. */
  method GetUsableContact(client: N.Client, contact: Value) returns (rc: Value)
    requires client.Valid()
    modifies client, client.http`currentMethod, client.http.transport`log
    ensures client.Valid()
    ensures M.Out(client.Now(), rc) == old(F.UsableContact(client.Env(), client.Now(), contact))
  {
    ghost var start := client.Now();
    rc := contact;
    var holders := client.GetHolders(false);
    assert M.Out(client.Now(), holders) == M.GetHolders(client.Env(), start, false);
    if Truthy(holders) {
      rc := ScanHolders(contact, ValuesOf(holders));
    }
  }

  /** The loop of `getUsableContact`: every holder of the account, in order,
      against the contact's name. */
  method ScanHolders(contact: Value, hs: seq<Value>) returns (rc: Value)
    ensures rc == ScanAll(ScanStart(contact), hs).contact
  {
    var name := StrVal(Get(contact, "name"));
    rc := contact;
    for i := 0 to |hs|
      invariant Scan(name, rc) == ScanAll(ScanStart(contact), hs[..i])
    {
      assert hs[..i + 1][..i] == hs[..i];
      name, rc := CompareHolder(name, rc, hs[i]);
    }
    assert hs[..|hs|] == hs;
  }

  /** The body of `getUsableContact`'s loop: one holder of the account
      against the name still to be explained and the contact. */
  method CompareHolder(name: string, contact: Value, holder: Value) returns (name': string, contact': Value)
    ensures Scan(name', contact') == ScanStep(Scan(name, contact), holder)
  {
    name', contact' := name, contact;
    var first := StrVal(Get(holder, "firstname"));
    if Contains(name', first) {
      contact' := SetField(contact', "firstname", Get(holder, "firstname"));
      name' := Trim(RemoveCI(name', first), Whitespace);
    }
    assert Scan(name', contact') == TakeFirstName(Scan(name, contact), holder);
    var last := StrVal(Get(holder, "lastname"));
    var haystack, needle;
    if |name'| < |last| {
      haystack, needle := last, name';
    } else {
      haystack, needle := name', last;
    }
    if Contains(haystack, needle) {
      contact' := SetField(contact', "lastname", Get(holder, "lastname"));
    }
    assert Scan(name', contact') == TakeLastName(TakeFirstName(Scan(name, contact), holder), holder);
    ghost var named := contact';
    var phone := Get(contact', "phone");
    if Truthy(phone) {
      var phoneNumber := SplitFirst(StrVal(phone), '.');
      contact' := SetField(contact', "phone", if phoneNumber.1.Some? && Truthy(Str(phoneNumber.1.value)) then Str(phoneNumber.1.value) else phone);
    }
    assert contact' == StripPhone(named);
  }

  /** `getOrCreateHolder`. */
  method GetOrCreateHolder(client: N.Client, w: Value) returns (rc: Value)
    requires client.Valid()
    modifies client, client.http`currentMethod, client.http.transport`log
    ensures client.Valid()
    ensures M.Out(client.Now(), rc) == old(F.GetOrCreateHolder(client.Env(), client.Now(), w))
  {
    var holder := WhmcsIdentity(w);
    rc := client.FindHolderId(holder);
    if !Truthy(rc) {
      var phoneNumber := SplitFirst(StrVal(Get(w, "Phone Number")), '.');
      var created := holder.entries + [(SKey("phone_number"), Str(if phoneNumber.1.Some? then phoneNumber.1.value else "")),
                                       (SKey("country_code"), Get(w, "Country"))];
      var holderId := client.CreateHolder(created);
      if Truthy(holderId) {
        rc := holderId;
      }
    }
  }

  /** The holder of a registration: the id `findHolderId` gives for the
      seven identity fields, else the id `createHolder` gives for them with
      the phone number and the country code. */
  method RegistrationHolderId(client: N.Client, params: Value) returns (holderId: Value)
    requires client.Valid() && client.Now() == M.Fresh
    modifies client, client.http`currentMethod, client.http.transport`log
    ensures client.Valid()
    ensures M.Out(client.Now(), holderId) == F.RegistrationHolderId(client.Env(), F.RegistrationOf(params))
  {
    var holder := RegistrationIdentity(params);
    holderId := client.FindHolderId(holder);
    if !Truthy(holderId) {
      var entries := holder.entries;
      entries := entries + [(SKey("phone_number"), Get(params, "phonenumber"))];
      entries := entries + [(SKey("country_code"), Get(params, "countrycode"))];
      assert entries == RegistrationHolder(params);
      holderId := client.CreateHolder(entries);
    }
  }

  /** The body `neostrada_RegisterDomain` and `neostrada_TransferDomain`
      share, with the verb of the order's error message. */
  method HolderThenOrder(client: N.Client, params: Value, action: string) returns (rc: Value)
    requires client.Valid() && client.Now() == M.Fresh
    modifies client, client.http`currentMethod, client.http.transport`log
    ensures client.Valid()
    ensures M.Out(client.Now(), rc) == F.HolderThenOrder(client.Env(), F.RegistrationOf(params), action)
  {
    ghost var reg := F.RegistrationOf(params);
    var holderId := RegistrationHolderId(client, params);
    rc := ErrorResult("Could not create contact '" + (StrVal(Get(params, "firstname")) + " " + StrVal(Get(params, "lastname"))) + "'");
    if Truthy(holderId) {
      var domain := F.DomainName(params);
      rc := ErrorResult("Could not " + action + " domain '" + domain + "'");
      var nameservers := Filtered(F.NameserverParams(params));
      ghost var h := client.Now();
      var order := client.Order(domain, holderId, Get(params, "regperiod"), Arr(nameservers));
      assert M.Out(client.Now(), order) == M.Order(client.Env(), h, reg.domain, holderId, reg.years, Arr(reg.nameservers));
      if order {
        rc := SuccessResult;
      }
    }
  }

  // ---------------------------------------------------------------------
  // The loops of the module functions

  /** The loop of `neostrada_GetNameservers`: each nameserver's content
      under `ns` and its key plus one. */
  method Slots(entries: Entries) returns (slots: Entries)
    ensures slots == NameserverSlots(entries)
  {
    slots := [];
    for i := 0 to |entries|
      invariant slots == NameserverSlots(entries[..i])
    {
      assert entries[..i + 1][..i] == entries[..i];
      slots := Put(slots, SKey(SlotName(entries[i].0)), Get(entries[i].1, "content"));
    }
    assert entries[..|entries|] == entries;
  }

  /** The loop of `neostrada_GetDNS`: one WHMCS row per record, in order. */
  method Rows(records: seq<Value>) returns (rows: seq<Value>)
    ensures rows == seq(|records|, i requires 0 <= i < |records| => WhmcsRow(records[i]))
  {
    rows := [];
    for i := 0 to |records|
      invariant |rows| == i && forall j :: 0 <= j < i ==> rows[j] == WhmcsRow(records[j])
    {
      rows := rows + [WhmcsRow(records[i])];
    }
  }

  /** The first loop of `neostrada_SaveDNS`: every remote record's id,
      stored under itself. */
  method DeleteSet(remote: seq<Value>) returns (deleteRecords: Entries)
    ensures deleteRecords == DeleteSeed(remote)
  {
    deleteRecords := [];
    for i := 0 to |remote|
      invariant deleteRecords == DeleteSeed(remote[..i])
    {
      assert remote[..i + 1][..i] == remote[..i];
      deleteRecords := Put(deleteRecords, IdKey(remote[i]), Get(remote[i], "id"));
    }
    assert remote[..|remote|] == remote;
  }

  /** The second loop of `neostrada_SaveDNS`: each desired record becomes an
      update (and leaves the delete set) or an add. */
  method Classify(seed: Entries, desired: seq<Value>) returns (deleteRecords: Entries, updateRecords: seq<Value>, addRecords: seq<Value>)
    ensures Batches(deleteRecords, updateRecords, addRecords) == Diff(seed, desired)
  {
    deleteRecords, updateRecords, addRecords := seed, [], [];
    for i := 0 to |desired|
      invariant Batches(deleteRecords, updateRecords, addRecords) == Diff(seed, desired[..i])
    {
      assert desired[..i + 1][..i] == desired[..i];
      var record := desired[i];
      if Truthy(Get(record, "recid")) && Truthy(Get(record, "hostname")) && Truthy(Get(record, "address")) {
        updateRecords := updateRecords + [UpdateOp(record)];
        deleteRecords := Remove(deleteRecords, IdKey(record));
      }
      if Empty(Get(record, "recid")) {
        addRecords := addRecords + [AddOp(record)];
      }
    }
    assert desired[..|desired|] == desired;
  }

  // ---------------------------------------------------------------------
  // Module functions

  /** `neostrada_RegisterDomain`. */
  method RegisterDomain(transport: Transport, params: Value) returns (rc: Value)
    modifies transport`log
    ensures Answered(F.RegisterDomain(EnvFor(params, transport.script, old(transport.log)), params),
                     ApiKey(params), old(transport.log), transport.log, rc)
  {
    var client := new N.Client(ApiKey(params), transport);
    rc := HolderThenOrder(client, params, "register");
  }

  /** `neostrada_TransferDomain`: the transfer secret it passes as a fifth
      argument is not a parameter of `order`. */
  method TransferDomain(transport: Transport, params: Value) returns (rc: Value)
    modifies transport`log
    ensures Answered(F.TransferDomain(EnvFor(params, transport.script, old(transport.log)), params),
                     ApiKey(params), old(transport.log), transport.log, rc)
  {
    var client := new N.Client(ApiKey(params), transport);
    rc := HolderThenOrder(client, params, "transfer");
  }

  /** `neostrada_GetNameservers`. */
  method GetNameservers(transport: Transport, params: Value) returns (rc: Value)
    modifies transport`log
    ensures Answered(F.GetNameservers(EnvFor(params, transport.script, old(transport.log)), params),
                     ApiKey(params), old(transport.log), transport.log, rc)
  {
    var client := new N.Client(ApiKey(params), transport);
    rc := ErrorResult("Could not get nameservers");
    var nameservers := client.GetNameservers(F.DomainName(params));
    if nameservers != Null {
      if Empty(nameservers) {
        rc := SuccessResult;
      } else {
        var slots := Slots(if nameservers.Arr? then nameservers.entries else []);
        rc := Arr(slots);
      }
    }
  }

  /** `neostrada_SaveNameservers`. */
  method SaveNameservers(transport: Transport, params: Value) returns (rc: Value)
    modifies transport`log
    ensures Answered(F.SaveNameservers(EnvFor(params, transport.script, old(transport.log)), params),
                     ApiKey(params), old(transport.log), transport.log, rc)
  {
    var client := new N.Client(ApiKey(params), transport);
    var domain := F.DomainName(params);
    var nameservers := Filtered(F.NameserverParams(params));
    rc := ErrorResult("Could not save nameservers");
    if nameservers != [] {
      var _ := client.DeleteCurrentNameservers(domain);
      var added := client.AddNameservers(domain, Arr(nameservers));
      if added {
        rc := SuccessResult;
      }
    }
  }

  /** `neostrada_GetContactDetails`. */
  method GetContactDetails(transport: Transport, params: Value) returns (rc: Value)
    modifies transport`log
    ensures Answered(F.GetContactDetails(EnvFor(params, transport.script, old(transport.log)), params),
                     ApiKey(params), old(transport.log), transport.log, rc)
  {
    var client := new N.Client(ApiKey(params), transport);
    rc := ErrorResult("Could not get contact details");
    var domain := client.GetDomain(F.DomainName(params));
    if Truthy(domain) {
      var registrant := GetUsableContact(client, Get(domain, "registrant"));
      var tech := GetUsableContact(client, Get(domain, "tech"));
      var admin := GetUsableContact(client, Get(domain, "admin"));
      rc := F.ContactDetails(registrant, tech, admin);
    }
  }

  /** `neostrada_SaveContactDetails`. */
  method SaveContactDetails(transport: Transport, params: Value) returns (rc: Value)
    modifies transport`log
    ensures Answered(F.SaveContactDetails(EnvFor(params, transport.script, old(transport.log)), params),
                     ApiKey(params), old(transport.log), transport.log, rc)
  {
    var client := new N.Client(ApiKey(params), transport);
    var details := Get(params, "contactdetails");
    var registrantId := GetOrCreateHolder(client, Get(details, "Registrant"));
    var techId := GetOrCreateHolder(client, Get(details, "Technical"));
    var adminId := GetOrCreateHolder(client, Get(details, "Admin"));
    var updated := false;
    if Truthy(registrantId) && Truthy(techId) && Truthy(adminId) {
      updated := client.UpdateDomainHolders(F.DomainName(params), F.DomainHolders(registrantId, techId, adminId));
    }
    rc := ErrorResult("Could not change contact for domain");
    if updated {
      rc := SuccessResult;
    }
  }

  /** `neostrada_GetDNS`. */
  method GetDns(transport: Transport, params: Value) returns (rc: Value)
    modifies transport`log
    ensures Answered(F.GetDns(EnvFor(params, transport.script, old(transport.log)), params),
                     ApiKey(params), old(transport.log), transport.log, rc)
  {
    var client := new N.Client(ApiKey(params), transport);
    rc := ErrorResult("Could not fetch records");
    var records := client.GetDnsRecords(F.DomainName(params), M.DefaultExclude);
    assert M.Out(client.Now(), records) == M.GetDnsRecords(client.Env(), M.Fresh, F.DomainName(params), M.DefaultExclude);
    if records != Null {
      var rows: seq<Value> := [];
      if Truthy(records) {
        rows := Rows(ValuesOf(records));
      }
      rc := ListOf(rows);
    }
  }

  /** `neostrada_SaveDNS`. */
  method SaveDns(transport: Transport, params: Value) returns (rc: Value)
    modifies transport`log
    ensures Answered(F.SaveDns(EnvFor(params, transport.script, old(transport.log)), params),
                     ApiKey(params), old(transport.log), transport.log, rc)
  {
    var client := new N.Client(ApiKey(params), transport);
    var domain := F.DomainName(params);
    var deleteRecords: Entries := [];
    var records := client.GetDnsRecords(domain, M.DefaultExclude);
    ghost var fetched := M.GetDnsRecords(client.Env(), M.Fresh, domain, M.DefaultExclude);
    assert M.Out(client.Now(), records) == fetched;
    if Truthy(records) {
      deleteRecords := DeleteSet(ValuesOf(records));
    }
    ghost var seed := deleteRecords;
    var updateRecords, addRecords;
    deleteRecords, updateRecords, addRecords := Classify(deleteRecords, ValuesOf(Get(params, "dnsrecords")));
    assert seed == F.SaveSeed(records);
    ghost var e := client.Env();
    ghost var s0 := client.Now();
    if deleteRecords != [] {
      var _ := client.DeleteDnsRecords(domain, deleteRecords);
    }
    ghost var s1 := client.Now();
    assert s1 == if deleteRecords != [] then M.DeleteDnsRecords(e, s0, domain, deleteRecords).st else s0;
    if updateRecords != [] {
      var _ := client.UpdateDnsRecords(domain, ListOf(updateRecords));
    }
    ghost var s2 := client.Now();
    assert s2 == if updateRecords != [] then M.UpdateDnsRecords(e, s1, domain, ListOf(updateRecords)).st else s1;
    if addRecords != [] {
      var _ := client.AddDnsRecords(domain, ListOf(addRecords));
    }
    assert client.Now() == if addRecords != [] then M.AddDnsRecords(e, s2, domain, ListOf(addRecords)).st else s2;
    rc := SuccessResult;
  }

  /** `neostrada_GetEPPCode`. */
  method GetEppCode(transport: Transport, params: Value) returns (rc: Value)
    modifies transport`log
    ensures Answered(F.GetEppCode(EnvFor(params, transport.script, old(transport.log)), params),
                     ApiKey(params), old(transport.log), transport.log, rc)
  {
    var client := new N.Client(ApiKey(params), transport);
    var domain := client.GetDomain(F.DomainName(params));
    if Truthy(domain) && IsSet(domain, "auth_code") {
      return Arr([(SKey("eppcode"), Get(domain, "auth_code"))]);
    }
    rc := ErrorResult("Could not fetch EPP ode");
  }

  /** `neostrada_RequestDelete`. */
  method RequestDelete(transport: Transport, params: Value) returns (rc: Value)
    modifies transport`log
    ensures Answered(F.RequestDelete(EnvFor(params, transport.script, old(transport.log)), params),
                     ApiKey(params), old(transport.log), transport.log, rc)
  {
    var client := new N.Client(ApiKey(params), transport);
    rc := ErrorResult("Could not delete domain");
    var deleted := client.DeleteDomain(F.DomainName(params));
    if deleted {
      rc := SuccessResult;
    }
  }

  /** `neostrada_Sync`, given the WHMCS domain details, the `paid_until`
      parser, the current time and whether reactivating the domain worked. */
  method Sync(transport: Transport, params: Value, details: Value, parse: string -> Option<Expiry>, now: int, reactivated: bool)
    returns (rc: Value)
    modifies transport`log
    ensures Answered(F.Sync(EnvFor(params, transport.script, old(transport.log)), params, details, parse, now, reactivated),
                     ApiKey(params), old(transport.log), transport.log, rc)
  {
    var client := new N.Client(ApiKey(params), transport);
    var name := StrVal(Get(params, "domain"));
    if Empty(details) {
      return ErrorResult("Could not get domain details for " + name);
    }
    var autoRenew := LooseZero(Get(details, "donotrenew"));
    rc := ErrorResult("Could not sync domain " + name);
    var domain := client.GetDomain(name);
    if Truthy(domain) {
      var expiresAt := parse(StrVal(Get(domain, "paid_until")));
      if expiresAt.Some? {
        var active := Get(domain, "status") == Str("active");
        if !autoRenew && active {
          var deleted := client.DeleteDomain(name);
          if !deleted {
            return ErrorResult("Could not deactivate auto renewal for " + name);
          }
          active := false;
        } else if autoRenew && !active {
          if !reactivated {
            return ErrorResult("Could not activate auto renewal for " + name);
          }
          active := true;
        }
        var expired := false;
        if expiresAt.value.at < now {
          active := false;
          expired := true;
        }
        rc := SyncReport(expiresAt.value, active, expired);
      }
    }
  }

  /** `neostrada_TransferSync`. */
  method TransferSync(transport: Transport, params: Value, parse: string -> Option<Expiry>) returns (rc: Value)
    modifies transport`log
    ensures Answered(F.TransferSync(EnvFor(params, transport.script, old(transport.log)), params, parse),
                     ApiKey(params), old(transport.log), transport.log, rc)
  {
    var client := new N.Client(ApiKey(params), transport);
    rc := Arr([]);
    var domain := client.GetDomain(StrVal(Get(params, "domain")));
    if Truthy(domain) {
      var expiresAt := parse(StrVal(Get(domain, "paid_until")));
      if expiresAt.Some? {
        rc := Arr([(SKey("completed"), Bool(true)), (SKey("expirydate"), Str(expiresAt.value.day))]);
      }
    }
  }
}
