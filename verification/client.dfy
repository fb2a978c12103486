/** The `Client` class: the Neostrada API operations over an `Http` client,
    with the country, extension and holder lists cached in its fields. Every
    method is proved to leave the caches and the request log, and to return,
    exactly what the matching function of `ClientModel` computes from the
    state before the call. */
module Neostrada {
  import opened Php
  import opened Wire
  import Http
  import M = ClientModel

  class Client {
    const http: Http.Http
    /** The API key the client was made with; it lives on in the `Authorization` header. */
    ghost const key: string
    /** The requests on the wire before the client was made. */
    ghost const origin: seq<Request>
    /** The calls the client has made through `http`, oldest first. */
    ghost var calls: seq<M.ApiCall>
    var countries: Value
    var extensions: Value
    var holders: Value

    /** The `Http` client talks to the API endpoint with this key, and every
        request on the wire since construction is one of the client's calls. */
    ghost predicate Valid()
      reads this, http, http.transport
    {
      && http.baseUri == M.Endpoint && http.headers == M.AuthHeaders(key)
      && M.Logged(http.transport.log, origin, key, calls)
    }

    ghost function Env(): M.Env {
      M.Env(key, http.transport.script, |origin|)
    }

    /** The caches and the calls made so far. */
    ghost function Now(): M.State
      reads this
    {
      M.State(countries, extensions, holders, calls)
    }

    constructor (key: string, transport: Transport)
      ensures this.key == key && origin == transport.log && http.transport == transport
      ensures Valid() && Now() == M.Fresh && fresh(http)
    {
      this.key := key;
      origin := transport.log;
      calls := [];
      var options := M.HttpOptions(key);
      M.HttpOptionsRead(key);
      http := new Http.Http(options, transport);
      countries := Arr([]);
      extensions := Arr([]);
      holders := Arr([]);
    }

    /** `$this->client->name(...arguments)`: one more call, one more request. */
    method Call(name: string, arguments: seq<Value>) returns (response: Response)
      requires Valid() && name in ["get", "post", "patch", "delete"]
      modifies this`calls, http`currentMethod, http.transport`log
      ensures Valid()
      ensures M.Out(Now(), response) == old(M.Send(Env(), Now(), name, arguments))
    {
      M.CallNamesAccepted(name);
      var c := M.ApiCall(name, arguments);
      ghost var before := Now();
      M.LoggedStep(http.transport.log, origin, key, calls, c);
      M.LoggedRequest(key, http.baseUri, http.headers, name, arguments);
      var r := http.Call(name, arguments);
      calls := calls + [c];
      response := r.value;
      assert response == At(Env().script, Env().offset + |before.log|);
      assert Now() == before.(log := before.log + [c]);
    }

    method GetHolders(refresh: bool) returns (rc: Value)
      requires Valid()
      modifies this, http`currentMethod, http.transport`log
      ensures Valid()
      ensures M.Out(Now(), rc) == old(M.GetHolders(Env(), Now(), refresh))
    {
      if !Empty(holders) && !refresh {
        return holders;
      }
      rc := Null;
      var response := Call("get", [Str("holders")]);
      var result := M.GetResult(response);
      if Truthy(result) && IsSet(result, "results") {
        rc := Get(result, "results");
        holders := rc;
      }
    }

    method CreateHolder(holder: Entries) returns (rc: Value)
      requires Valid()
      modifies this, http`currentMethod, http.transport`log
      ensures Valid()
      ensures M.Out(Now(), rc) == old(M.CreateHolder(Env(), Now(), holder))
    {
      rc := Null;
      var countryId := GetCountryId(Lookup(holder, SKey("country_code")));
      if Truthy(countryId) {
        var payload := Put(holder, SKey("country_id"), countryId);
        payload := Put(payload, SKey("is_module"), Bool(true));
        var company := Lookup(payload, SKey("company"));
        if company != Null && Empty(company) {
          payload := Remove(payload, SKey("company"));
        }
        var response := Call("post", [Str("holders/add"), Arr(payload)]);
        var result := M.GetResult(response);
        if Truthy(result) && IsSet(Get(result, "results"), "holder_id") {
          rc := Get(Get(result, "results"), "holder_id");
        }
      }
    }

    method FindHolderId(candidate: Value) returns (rc: Value)
      requires Valid()
      modifies this, http`currentMethod, http.transport`log
      ensures Valid()
      ensures M.Out(Now(), rc) == old(M.FindHolderId(Env(), Now(), candidate))
    {
      rc := Null;
      var list := GetHolders(false);
      if Truthy(list) {
        var hs := ValuesOf(list);
        var i := 0;
        while i < |hs|
          invariant 0 <= i <= |hs|
          invariant M.MatchHolder(hs[i..], candidate) == M.MatchHolder(hs, candidate)
        {
          assert hs[i..][1..] == hs[i + 1..];
          if M.Identity(hs[i]) == candidate {
            rc := Get(hs[i], "holder_id");
            break;
          }
          i := i + 1;
        }
      }
    }

    method UpdateDomainHolders(domain: string, newHolders: Value) returns (rc: bool)
      requires Valid()
      modifies this, http`currentMethod, http.transport`log
      ensures Valid()
      ensures M.Out(Now(), rc) == old(M.UpdateDomainHolders(Env(), Now(), domain, newHolders))
    {
      rc := false;
      var d := GetDomain(domain);
      if Truthy(d) {
        var domainId := Get(d, "id");
        var response := Call("patch", [Str("domain/edit/" + StrVal(domainId)), Arr([(SKey("holder"), newHolders)])]);
        rc := M.Success(response);
      }
    }

    method GetNameservers(domain: string) returns (rc: Value)
      requires Valid()
      modifies this, http`currentMethod, http.transport`log
      ensures Valid()
      ensures M.Out(Now(), rc) == old(M.GetNameservers(Env(), Now(), domain))
    {
      rc := Null;
      var d := GetDomain(domain);
      if Truthy(d) {
        var dnsId := Get(d, "dns_id");
        var response := Call("get", [Str("nameservers/" + StrVal(dnsId))]);
        var result := M.GetResult(response);
        if Truthy(result) && IsSet(result, "results") {
          rc := Get(result, "results");
        }
      }
    }

    method AddNameservers(domain: string, nameservers: Value) returns (rc: bool)
      requires Valid()
      modifies this, http`currentMethod, http.transport`log
      ensures Valid()
      ensures M.Out(Now(), rc) == old(M.AddNameservers(Env(), Now(), domain, nameservers))
    {
      rc := false;
      var d := GetDomain(domain);
      if Truthy(d) {
        var dnsId := Get(d, "dns_id");
        var response := Call("post", [Str("nameservers/add/" + StrVal(dnsId)), Arr([(SKey("content"), nameservers)])]);
        rc := M.Success(response);
      }
    }

    method DeleteNameservers(domain: string, nameservers: Value) returns (rc: bool)
      requires Valid()
      modifies this, http`currentMethod, http.transport`log
      ensures Valid()
      ensures M.Out(Now(), rc) == old(M.DeleteNameservers(Env(), Now(), domain, nameservers))
    {
      rc := false;
      var d := GetDomain(domain);
      if Truthy(d) {
        var dnsId := Get(d, "dns_id");
        var response := Call("delete", [Str("nameservers/delete/" + StrVal(dnsId)), nameservers]);
        rc := M.Success(response);
      }
    }

    method DeleteCurrentNameservers(domain: string) returns (rc: bool)
      requires Valid()
      modifies this, http`currentMethod, http.transport`log
      ensures Valid()
      ensures M.Out(Now(), rc) == old(M.DeleteCurrentNameservers(Env(), Now(), domain))
    {
      rc := false;
      var nameservers := GetNameservers(domain);
      if Truthy(nameservers) {
        var ids := M.NameserverIds(nameservers);
        rc := DeleteNameservers(domain, Arr(ids));
      }
    }

    method GetDnsRecords(domain: string, exclude: seq<string>) returns (rc: Value)
      requires Valid()
      modifies this, http`currentMethod, http.transport`log
      ensures Valid()
      ensures M.Out(Now(), rc) == old(M.GetDnsRecords(Env(), Now(), domain, exclude))
    {
      rc := Null;
      var d := GetDomain(domain);
      if Truthy(d) {
        var dnsId := Get(d, "dns_id");
        var response := Call("get", [Str("dns/" + StrVal(dnsId))]);
        var result := M.GetResult(response);
        if Truthy(result) && IsSet(result, "results") {
          rc := Get(result, "results");
          if exclude != [] {
            rc := if rc.Arr? then Arr(M.ExcludeTypes(rc.entries, exclude)) else Null;
          }
        }
      }
    }

    method AddDnsRecords(domain: string, payload: Value) returns (rc: bool)
      requires Valid()
      modifies this, http`currentMethod, http.transport`log
      ensures Valid()
      ensures M.Out(Now(), rc) == old(M.AddDnsRecords(Env(), Now(), domain, payload))
    {
      rc := false;
      var d := GetDomain(domain);
      if Truthy(d) {
        var dnsId := Get(d, "dns_id");
        var response := Call("post", [Str("dns/add/" + StrVal(dnsId)), payload]);
        rc := M.Success(response);
      }
    }

    method UpdateDnsRecords(domain: string, payload: Value) returns (rc: bool)
      requires Valid()
      modifies this, http`currentMethod, http.transport`log
      ensures Valid()
      ensures M.Out(Now(), rc) == old(M.UpdateDnsRecords(Env(), Now(), domain, payload))
    {
      rc := false;
      var d := GetDomain(domain);
      if Truthy(d) {
        var dnsId := Get(d, "dns_id");
        var response := Call("patch", [Str("dns/edit/" + StrVal(dnsId)), payload]);
        rc := M.Success(response);
      }
    }

    method DeleteDnsRecords(domain: string, records: Entries) returns (rc: bool)
      requires Valid()
      modifies this, http`currentMethod, http.transport`log
      ensures Valid()
      ensures M.Out(Now(), rc) == old(M.DeleteDnsRecords(Env(), Now(), domain, records))
    {
      rc := false;
      var d := GetDomain(domain);
      if Truthy(d) {
        var dnsId := Get(d, "dns_id");
        var wrapped := M.WrapRecordIds(records);
        var response := Call("delete", [Str("dns/delete/" + StrVal(dnsId)), Arr(wrapped)]);
        rc := M.Success(response);
      }
    }

    method GetDomain(domain: string) returns (rc: Value)
      requires Valid()
      modifies this, http`currentMethod, http.transport`log
      ensures Valid()
      ensures M.Out(Now(), rc) == old(M.GetDomain(Env(), Now(), domain))
    {
      rc := Null;
      var response := Call("get", [Str("domain/" + domain)]);
      var result := M.GetResult(response);
      if Truthy(result) && IsSet(result, "results") {
        rc := Get(result, "results");
      }
    }

    method DeleteDomain(domain: string) returns (rc: bool)
      requires Valid()
      modifies this, http`currentMethod, http.transport`log
      ensures Valid()
      ensures M.Out(Now(), rc) == old(M.DeleteDomain(Env(), Now(), domain))
    {
      var response := Call("delete", [Str("domain/delete/" + domain)]);
      rc := M.Success(response);
    }

    method Whois(domain: string) returns (rc: Value)
      requires Valid()
      modifies this, http`currentMethod, http.transport`log
      ensures Valid()
      ensures M.Out(Now(), rc) == old(M.Whois(Env(), Now(), domain))
    {
      rc := Null;
      var response := Call("post", [Str("whois"), Arr([(SKey("domain"), Str(domain))])]);
      var result := M.GetResult(response);
      if Truthy(result) && IsSet(result, "results") {
        rc := Get(result, "results");
      }
    }

    method IsAvailable(domain: string) returns (rc: bool)
      requires Valid()
      modifies this, http`currentMethod, http.transport`log
      ensures Valid()
      ensures M.Out(Now(), rc) == old(M.IsAvailable(Env(), Now(), domain))
    {
      var whois := Whois(domain);
      rc := Truthy(whois) && IsSet(whois, "available") && Truthy(Get(whois, "available"));
    }

    method GetExtensions(refresh: bool) returns (rc: Value)
      requires Valid()
      modifies this, http`currentMethod, http.transport`log
      ensures Valid()
      ensures M.Out(Now(), rc) == old(M.GetExtensions(Env(), Now(), refresh))
    {
      if !Empty(extensions) && !refresh {
        return extensions;
      }
      rc := Null;
      var response := Call("get", [Str("extensions")]);
      var result := M.GetResult(response);
      if Truthy(result) && IsSet(result, "results") {
        rc := Get(result, "results");
        extensions := rc;
      }
    }

    method GetExtension(extension: string) returns (rc: Value)
      requires Valid()
      modifies this, http`currentMethod, http.transport`log
      ensures Valid()
      ensures M.Out(Now(), rc) == old(M.GetExtension(Env(), Now(), extension))
    {
      rc := Null;
      var list := GetExtensions(false);
      if Truthy(list) {
        var name := Trim(extension, {'.'});
        var items := ValuesOf(list);
        var i := 0;
        while i < |items|
          invariant 0 <= i <= |items|
          invariant M.MatchExtension(items[i..], name) == M.MatchExtension(items, name)
        {
          assert items[i..][1..] == items[i + 1..];
          if IsSet(items[i], "extension") && Get(items[i], "extension") == Str(name) {
            rc := items[i];
            break;
          }
          i := i + 1;
        }
      }
    }

    method GetCountries(refresh: bool) returns (rc: Value)
      requires Valid()
      modifies this, http`currentMethod, http.transport`log
      ensures Valid()
      ensures M.Out(Now(), rc) == old(M.GetCountries(Env(), Now(), refresh))
    {
      if !Empty(countries) && !refresh {
        return countries;
      }
      rc := Null;
      var response := Call("get", [Str("countries")]);
      var result := M.GetResult(response);
      if Truthy(result) && IsSet(result, "results") {
        rc := Get(result, "results");
        countries := rc;
      }
    }

    method GetCountryId(code: Value) returns (rc: Value)
      requires Valid()
      modifies this, http`currentMethod, http.transport`log
      ensures Valid()
      ensures M.Out(Now(), rc) == old(M.GetCountryId(Env(), Now(), code))
    {
      rc := Null;
      var list := GetCountries(false);
      if Truthy(list) {
        var cs := ValuesOf(list);
        var i := 0;
        while i < |cs|
          invariant 0 <= i <= |cs|
          invariant M.MatchCountry(cs[i..], code) == M.MatchCountry(cs, code)
        {
          assert cs[i..][1..] == cs[i + 1..];
          if IsSet(cs[i], "code") && Get(cs[i], "code") == code && IsSet(cs[i], "country_id") {
            rc := Get(cs[i], "country_id");
            break;
          }
          i := i + 1;
        }
      }
    }

    method Order(domain: string, holderId: Value, years: Value, authCode: Value) returns (rc: bool)
      requires Valid()
      modifies this, http`currentMethod, http.transport`log
      ensures Valid()
      ensures M.Out(Now(), rc) == old(M.Order(Env(), Now(), domain, holderId, years, authCode))
    {
      ghost var found := M.GetExtension(Env(), Now(), M.TldOf(domain));
      rc := false;
      var tld := M.TldOf(domain);
      var year := if years == M.AllowedYears then years else Int(1);
      var extension := GetExtension(tld);
      assert M.Out(Now(), extension) == found;
      if Truthy(extension) {
        var payload := M.OrderBase(extension, domain, holderId, year);
        payload := if Truthy(authCode) then Put(payload, SKey("authcode"), authCode) else payload;
        assert payload == M.OrderPayload(found.val, domain, holderId, M.YearsSent(years), authCode);
        var response := Call("post", [Str("orders/add/"), Arr(payload)]);
        rc := M.Success(response);
        assert M.Out(Now(), rc) == M.Order(Env(), old(Now()), domain, holderId, years, authCode);
      } else {
        assert M.Out(Now(), rc) == M.Order(Env(), old(Now()), domain, holderId, years, authCode);
      }
    }
  }
}
