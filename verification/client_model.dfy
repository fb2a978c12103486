/** The registrar client as a function of its state: every API operation of
    `Client` takes the three lookup caches and the request log to their new
    values and a result, given the API key and the scripted replies. The
    `Client` class proves its methods against these functions, and the flows
    of the module functions are written with them. */
module ClientModel {
  import opened Php
  import opened Wire
  import Http

  const Endpoint := "https://api.neostrada.com/api"

  /** The headers every request carries. */
  function AuthHeaders(key: string): Entries {
    [(SKey("Accept"), Str("application/json")), (SKey("Authorization"), Str("Bearer " + key))]
  }

  /** The options the client hands to `Http`. */
  function HttpOptions(key: string): Value {
    Arr([(SKey("base_uri"), Str(Endpoint)), (SKey("headers"), Arr(AuthHeaders(key)))])
  }

  lemma HttpOptionsRead(key: string)
    ensures Get(HttpOptions(key), "base_uri") == Str(Endpoint)
    ensures Get(HttpOptions(key), "headers") == Arr(AuthHeaders(key))
  {
    var es := HttpOptions(key).entries;
    assert |"base_uri"| != |"headers"|;
    assert Lookup(es, SKey("headers")) == Lookup(es[1..], SKey("headers"));
    assert es[1..] == [(SKey("headers"), Arr(AuthHeaders(key)))];
  }

  /** The request `$this->client->name(...arguments)` issues: `__call`
      upper-cases the name, which becomes both the verb and the current method. */
  function ApiRequest(key: string, name: string, arguments: seq<Value>): Request {
    Http.RequestFor(Upper(name), Upper(name), Endpoint, AuthHeaders(key), Http.UriArg(arguments), Http.PayloadArg(arguments))
  }

  /** The method names the client calls are verbs `__call` accepts. */
  lemma CallNamesAccepted(name: string)
    requires name in ["get", "post", "patch", "delete"]
    ensures Upper(name) in Http.Methods
  {
    Http.MethodNames();
    if name == "get" {
      assert Upper(name) == Http.Methods[0];
    } else if name == "post" {
      assert Upper(name) == Http.Methods[1];
    } else if name == "patch" {
      assert Upper(name) == Http.Methods[3];
    } else {
      assert Upper(name) == Http.Methods[2];
    }
  }

  /** What `Http` logs for a call, once its options are the client's, is `ApiRequest`. */
  lemma LoggedRequest(key: string, base: string, headers: Entries, name: string, arguments: seq<Value>)
    requires base == Endpoint && headers == AuthHeaders(key)
    ensures Http.RequestFor(Upper(name), Upper(name), base, headers, Http.UriArg(arguments), Http.PayloadArg(arguments))
      == ApiRequest(key, name, arguments)
  {
  }

  /** One call `$this->client->name(...arguments)`. */
  datatype ApiCall = ApiCall(name: string, arguments: seq<Value>)

  /** The requests a sequence of calls puts on the wire. */
  function Requests(key: string, calls: seq<ApiCall>): (r: seq<Request>)
    ensures |r| == |calls|
  {
    seq(|calls|, i requires 0 <= i < |calls| => ApiRequest(key, calls[i].name, calls[i].arguments))
  }

  /** The wire holds the requests that were there before, then one request per call. */
  ghost predicate Logged(wire: seq<Request>, origin: seq<Request>, key: string, calls: seq<ApiCall>) {
    wire == origin + Requests(key, calls)
  }

  /** One more call puts its request on the wire after the others. */
  lemma LoggedStep(wire: seq<Request>, origin: seq<Request>, key: string, calls: seq<ApiCall>, c: ApiCall)
    requires Logged(wire, origin, key, calls)
    ensures Logged(wire + [ApiRequest(key, c.name, c.arguments)], origin, key, calls + [c])
    ensures |wire| == |origin| + |calls|
  {
    RequestsAppend(key, calls, c);
  }

  lemma RequestsAppend(key: string, calls: seq<ApiCall>, c: ApiCall)
    ensures Requests(key, calls + [c]) == Requests(key, calls) + [ApiRequest(key, c.name, c.arguments)]
  {
    var r, r' := Requests(key, calls + [c]), Requests(key, calls) + [ApiRequest(key, c.name, c.arguments)];
    forall i | 0 <= i < |r|
      ensures r[i] == r'[i]
    {
      if i < |calls| {
        assert (calls + [c])[i] == calls[i];
      }
    }
  }

  /** What the client cannot change: its key and the replies it will get; the
      k-th call of the client is the `offset + k`-th request on the wire. */
  datatype Env = Env(key: string, script: seq<Response>, offset: nat)

  /** The three lookup caches and the calls issued so far. */
  datatype State = State(countries: Value, extensions: Value, holders: Value, log: seq<ApiCall>)

  /** The state after an operation, and its result. */
  datatype Out<T> = Out(st: State, val: T)

  /** A newly constructed client: empty caches, no calls. */
  const Fresh: State := State(Arr([]), Arr([]), Arr([]), [])

  /** One request through `Http::__call`: logged, answered by the next reply. */
  function Send(e: Env, s: State, name: string, arguments: seq<Value>): Out<Response> {
    Out(s.(log := s.log + [ApiCall(name, arguments)]), At(e.script, e.offset + |s.log|))
  }

  // ---------------------------------------------------------------------
  // Response envelope

  /** `success`: the status is exactly 200. */
  predicate Success(r: Response) {
    r.status == 200
  }

  /** `getResult`: the decoded body when the call succeeded and the body is truthy, else null. */
  function GetResult(r: Response): (v: Value)
    ensures v != Null <==> Success(r) && Truthy(r.body)
    ensures v != Null ==> v == r.body
  {
    if Success(r) && Truthy(r.body) then r.body else Null
  }

  /** The `results` member of a successful envelope, or null. */
  function ResultsOf(r: Response): Value {
    Get(GetResult(r), "results")
  }

  // ---------------------------------------------------------------------
  // Lookup caches

  /** A cached getter goes to the API when its cache is empty or a refresh is asked for. */
  predicate Refetches(cache: Value, refresh: bool) {
    Empty(cache) || refresh
  }

  /** The cache a getter leaves: a fetched `results` replaces it, a failed fetch keeps it. */
  function Refill(cache: Value, fetched: Value): Value {
    if fetched != Null then fetched else cache
  }

  function GetHolders(e: Env, s: State, refresh: bool): Out<Value> {
    if !Refetches(s.holders, refresh) then Out(s, s.holders)
    else
      var o := Send(e, s, "get", [Str("holders")]);
      var results := ResultsOf(o.val);
      Out(o.st.(holders := Refill(s.holders, results)), results)
  }

  function GetExtensions(e: Env, s: State, refresh: bool): Out<Value> {
    if !Refetches(s.extensions, refresh) then Out(s, s.extensions)
    else
      var o := Send(e, s, "get", [Str("extensions")]);
      var results := ResultsOf(o.val);
      Out(o.st.(extensions := Refill(s.extensions, results)), results)
  }

  function GetCountries(e: Env, s: State, refresh: bool): Out<Value> {
    if !Refetches(s.countries, refresh) then Out(s, s.countries)
    else
      var o := Send(e, s, "get", [Str("countries")]);
      var results := ResultsOf(o.val);
      Out(o.st.(countries := Refill(s.countries, results)), results)
  }

  /** A cached getter serves a non-empty cache without a request unless asked
      to refresh; otherwise it issues one GET, returns the `results` of the
      reply (null when the call failed), and only a non-null `results`
      replaces the cache; the other caches are untouched. */
  lemma CacheRules(e: Env, s: State, refresh: bool)
    ensures var o := GetHolders(e, s, refresh);
      && (!Refetches(s.holders, refresh) ==> o == Out(s, s.holders))
      && (Refetches(s.holders, refresh) ==>
            && o.st.log == s.log + [ApiCall("get", [Str("holders")])]
            && o.val == ResultsOf(At(e.script, e.offset + |s.log|))
            && o.st.holders == (if o.val == Null then s.holders else o.val)
            && o.st.countries == s.countries && o.st.extensions == s.extensions)
    ensures var o := GetExtensions(e, s, refresh);
      && (!Refetches(s.extensions, refresh) ==> o == Out(s, s.extensions))
      && (Refetches(s.extensions, refresh) ==>
            && o.st.log == s.log + [ApiCall("get", [Str("extensions")])]
            && o.val == ResultsOf(At(e.script, e.offset + |s.log|))
            && o.st.extensions == (if o.val == Null then s.extensions else o.val)
            && o.st.countries == s.countries && o.st.holders == s.holders)
    ensures var o := GetCountries(e, s, refresh);
      && (!Refetches(s.countries, refresh) ==> o == Out(s, s.countries))
      && (Refetches(s.countries, refresh) ==>
            && o.st.log == s.log + [ApiCall("get", [Str("countries")])]
            && o.val == ResultsOf(At(e.script, e.offset + |s.log|))
            && o.st.countries == (if o.val == Null then s.countries else o.val)
            && o.st.extensions == s.extensions && o.st.holders == s.holders)
  {
  }

  /** Once a getter has returned a non-empty list, asking again without a
      refresh returns the same list and issues no request. */
  lemma CachesServeRepeats(e: Env, s: State, refresh: bool)
    ensures var o := GetHolders(e, s, refresh);
      Truthy(o.val) ==> GetHolders(e, o.st, false) == Out(o.st, o.val)
    ensures var o := GetExtensions(e, s, refresh);
      Truthy(o.val) ==> GetExtensions(e, o.st, false) == Out(o.st, o.val)
    ensures var o := GetCountries(e, s, refresh);
      Truthy(o.val) ==> GetCountries(e, o.st, false) == Out(o.st, o.val)
  {
  }

  // ---------------------------------------------------------------------
  // Holders

  /** The seven fields a holder is matched on, in the order the source lists them. */
  function Identity(h: Value): Value {
    Arr([(SKey("company"), Get(h, "company")),
         (SKey("firstname"), Get(h, "firstname")),
         (SKey("lastname"), Get(h, "lastname")),
         (SKey("street"), Get(h, "street")),
         (SKey("zipcode"), Get(h, "zipcode")),
         (SKey("city"), Get(h, "city")),
         (SKey("email"), Get(h, "email"))])
  }

  /** The `holder_id` of the first holder whose identity is the candidate. */
  function MatchHolder(hs: seq<Value>, candidate: Value): Value {
    if hs == [] then Null
    else if Identity(hs[0]) == candidate then Get(hs[0], "holder_id")
    else MatchHolder(hs[1..], candidate)
  }

  function FindHolderId(e: Env, s: State, candidate: Value): Out<Value> {
    var o := GetHolders(e, s, false);
    Out(o.st, MatchHolder(ValuesOf(o.val), candidate))
  }

  /** The first holder whose seven identity fields equal the candidate wins. */
  lemma {:induction false} MatchHolderFirst(hs: seq<Value>, candidate: Value, i: nat)
    requires i < |hs| && Identity(hs[i]) == candidate
    requires forall j :: 0 <= j < i ==> Identity(hs[j]) != candidate
    ensures MatchHolder(hs, candidate) == Get(hs[i], "holder_id")
  {
    if i > 0 {
      MatchHolderFirst(hs[1..], candidate, i - 1);
    }
  }

  /** No holder with that identity: no id. */
  lemma {:induction false} MatchHolderNone(hs: seq<Value>, candidate: Value)
    requires forall j :: 0 <= j < |hs| ==> Identity(hs[j]) != candidate
    ensures MatchHolder(hs, candidate) == Null
  {
    if hs != [] {
      MatchHolderNone(hs[1..], candidate);
    }
  }

  /** Matching is exact on the seven fields and blind to every other field
      (phone number, country): changing one of the seven to a different value
      changes the identity, changing any other key does not. */
  lemma IdentityFields(h: Entries, k: string, x: Value)
    ensures k in {"company", "firstname", "lastname", "street", "zipcode", "city", "email"} && x != Lookup(h, SKey(k))
      ==> Identity(Arr(Put(h, SKey(k), x))) != Identity(Arr(h))
    ensures k !in {"company", "firstname", "lastname", "street", "zipcode", "city", "email"}
      ==> Identity(Arr(Put(h, SKey(k), x))) == Identity(Arr(h))
  {
    if k in {"company", "firstname", "lastname", "street", "zipcode", "city", "email"} && x != Lookup(h, SKey(k)) {
      IdentityDiffers(Arr(Put(h, SKey(k), x)), Arr(h), k);
    }
  }

  /** Two holders that differ in one of the seven fields differ in identity. */
  lemma IdentityDiffers(a: Value, b: Value, k: string)
    requires k in {"company", "firstname", "lastname", "street", "zipcode", "city", "email"}
    requires Get(a, k) != Get(b, k)
    ensures Identity(a) != Identity(b)
  {
    if k == "company" { assert Identity(a).entries[0].1 != Identity(b).entries[0].1; }
    else if k == "firstname" { assert Identity(a).entries[1].1 != Identity(b).entries[1].1; }
    else if k == "lastname" { assert Identity(a).entries[2].1 != Identity(b).entries[2].1; }
    else if k == "street" { assert Identity(a).entries[3].1 != Identity(b).entries[3].1; }
    else if k == "zipcode" { assert Identity(a).entries[4].1 != Identity(b).entries[4].1; }
    else if k == "city" { assert Identity(a).entries[5].1 != Identity(b).entries[5].1; }
    else { assert Identity(a).entries[6].1 != Identity(b).entries[6].1; }
  }

  /** The `holders/add` payload: the input plus `country_id` and
      `is_module = true`, without `company` when that is set but empty. */
  function HolderPayload(holder: Entries, countryId: Value): (p: Entries)
    ensures Lookup(p, SKey("country_id")) == countryId
    ensures Lookup(p, SKey("is_module")) == Bool(true)
    ensures forall k :: k !in {SKey("country_id"), SKey("is_module"), SKey("company")} ==> Lookup(p, k) == Lookup(holder, k)
    ensures var c := Lookup(holder, SKey("company"));
      if c != Null && Empty(c) then SKey("company") !in KeysOf(p)
      else Lookup(p, SKey("company")) == c && (SKey("company") in KeysOf(holder) ==> SKey("company") in KeysOf(p))
  {
    var h := Put(Put(holder, SKey("country_id"), countryId), SKey("is_module"), Bool(true));
    var c := Lookup(h, SKey("company"));
    if c != Null && Empty(c) then Remove(h, SKey("company")) else h
  }

  /** The `country_id` of the first country with that code and an id. */
  function MatchCountry(cs: seq<Value>, code: Value): Value {
    if cs == [] then Null
    else if CountryMatches(cs[0], code) then Get(cs[0], "country_id")
    else MatchCountry(cs[1..], code)
  }

  /** A country that has the code and an id: the test `getCountryId` applies. */
  predicate CountryMatches(c: Value, code: Value) {
    IsSet(c, "code") && Get(c, "code") == code && IsSet(c, "country_id")
  }

  /** The id found is that of the first country with the code and an id; none
      is found exactly when no country has both. */
  lemma {:induction false} MatchCountryFirst(cs: seq<Value>, code: Value, r: Value)
    requires r == MatchCountry(cs, code)
    ensures r != Null ==> exists i :: 0 <= i < |cs| && CountryMatches(cs[i], code) && r == Get(cs[i], "country_id")
                                  && forall j :: 0 <= j < i ==> !CountryMatches(cs[j], code)
    ensures r == Null <==> forall i :: 0 <= i < |cs| ==> !CountryMatches(cs[i], code)
  {
    if cs != [] && !CountryMatches(cs[0], code) {
      MatchCountryFirst(cs[1..], code, r);
      if r != Null {
        var i :| 0 <= i < |cs[1..]| && CountryMatches(cs[1..][i], code) && r == Get(cs[1..][i], "country_id")
                && forall j :: 0 <= j < i ==> !CountryMatches(cs[1..][j], code);
        assert cs[i + 1] == cs[1..][i];
        assert forall j :: 1 <= j < i + 1 ==> cs[j] == cs[1..][j - 1];
      }
      assert forall i :: 1 <= i < |cs| ==> cs[i] == cs[1..][i - 1];
    } else if cs != [] {
      assert CountryMatches(cs[0], code);
    }
  }

  function GetCountryId(e: Env, s: State, code: Value): Out<Value> {
    var o := GetCountries(e, s, false);
    Out(o.st, MatchCountry(ValuesOf(o.val), code))
  }

  function CreateHolder(e: Env, s: State, holder: Entries): Out<Value> {
    var o := GetCountryId(e, s, Lookup(holder, SKey("country_code")));
    if !Truthy(o.val) then Out(o.st, Null)
    else
      var o2 := Send(e, o.st, "post", [Str("holders/add"), Arr(HolderPayload(holder, o.val))]);
      Out(o2.st, Get(ResultsOf(o2.val), "holder_id"))
  }

  /** An unknown country code issues no `holders/add` request: only the
      country lookup can have gone to the API. */
  lemma CreateHolderNeedsCountry(e: Env, s: State, holder: Entries)
    requires !Truthy(GetCountryId(e, s, Lookup(holder, SKey("country_code"))).val)
    ensures CreateHolder(e, s, holder).val == Null
    ensures CreateHolder(e, s, holder).st.log == s.log + (if Refetches(s.countries, false) then [ApiCall("get", [Str("countries")])] else [])
  {
  }

  /** `createHolder`: after the country lookup, an unknown country ends the
      call with null; a known one sends exactly one `holders/add` POST with
      the completed holder, whose `results.holder_id` is the result, and
      leaves the caches as the lookup left them. */
  lemma CreateHolderRequests(e: Env, s: State, holder: Entries)
    ensures var c := GetCountryId(e, s, Lookup(holder, SKey("country_code")));
      var r := CreateHolder(e, s, holder);
      && (!Truthy(c.val) ==> r == Out(c.st, Null))
      && (Truthy(c.val) ==>
            && r.st.log == c.st.log + [ApiCall("post", [Str("holders/add"), Arr(HolderPayload(holder, c.val))])]
            && r.st.(log := c.st.log) == c.st
            && r.val == Get(ResultsOf(At(e.script, e.offset + |c.st.log|)), "holder_id"))
  {
    var c := GetCountryId(e, s, Lookup(holder, SKey("country_code")));
    if Truthy(c.val) {
      var o2 := Send(e, c.st, "post", [Str("holders/add"), Arr(HolderPayload(holder, c.val))]);
      assert CreateHolder(e, s, holder) == Out(o2.st, Get(ResultsOf(o2.val), "holder_id"));
    }
  }

  // ---------------------------------------------------------------------
  // Domains, nameservers and DNS records

  function GetDomain(e: Env, s: State, domain: string): Out<Value> {
    var o := Send(e, s, "get", [Str("domain/" + domain)]);
    Out(o.st, ResultsOf(o.val))
  }

  /** Every dns_id-scoped call: resolve the domain first and, only when that
      yields a domain, issue one request against its `dns_id`. */
  function DnsScoped(e: Env, s: State, domain: string, verb: string, prefix: string, payload: Option<Value>): Out<Option<Response>> {
    var o := GetDomain(e, s, domain);
    if !Truthy(o.val) then Out(o.st, None)
    else
      var path := Str(prefix + StrVal(Get(o.val, "dns_id")));
      var o2 := Send(e, o.st, verb, if payload.Some? then [path, payload.value] else [path]);
      Out(o2.st, Some(o2.val))
  }

  /** The outcome of a scoped call that only reports success. */
  function Succeeded(r: Option<Response>): bool {
    r.Some? && Success(r.value)
  }

  function UpdateDomainHolders(e: Env, s: State, domain: string, holders: Value): Out<bool> {
    var o := GetDomain(e, s, domain);
    if !Truthy(o.val) then Out(o.st, false)
    else
      var o2 := Send(e, o.st, "patch", [Str("domain/edit/" + StrVal(Get(o.val, "id"))), Arr([(SKey("holder"), holders)])]);
      Out(o2.st, Success(o2.val))
  }

  function GetNameservers(e: Env, s: State, domain: string): Out<Value> {
    var o := DnsScoped(e, s, domain, "get", "nameservers/", None);
    Out(o.st, if o.val.Some? then ResultsOf(o.val.value) else Null)
  }

  function AddNameservers(e: Env, s: State, domain: string, nameservers: Value): Out<bool> {
    var o := DnsScoped(e, s, domain, "post", "nameservers/add/", Some(Arr([(SKey("content"), nameservers)])));
    Out(o.st, Succeeded(o.val))
  }

  function DeleteNameservers(e: Env, s: State, domain: string, nameservers: Value): Out<bool> {
    var o := DnsScoped(e, s, domain, "delete", "nameservers/delete/", Some(nameservers));
    Out(o.st, Succeeded(o.val))
  }

  /** `['record_id' => $nameserver['id']]` for each nameserver, keys kept. */
  function NameserverIds(nameservers: Value): (r: Entries)
    ensures |r| == (if nameservers.Arr? then |nameservers.entries| else 0)
    ensures nameservers.Arr? ==> forall i :: 0 <= i < |r| ==>
      r[i] == (nameservers.entries[i].0, Arr([(SKey("record_id"), Get(nameservers.entries[i].1, "id"))]))
  {
    if nameservers.Arr? then
      seq(|nameservers.entries|, i requires 0 <= i < |nameservers.entries| =>
        (nameservers.entries[i].0, Arr([(SKey("record_id"), Get(nameservers.entries[i].1, "id"))])))
    else []
  }

  function DeleteCurrentNameservers(e: Env, s: State, domain: string): Out<bool> {
    var o := GetNameservers(e, s, domain);
    if !Truthy(o.val) then Out(o.st, false)
    else DeleteNameservers(e, o.st, domain, Arr(NameserverIds(o.val)))
  }

  /** `deleteCurrentNameservers`: with no nameservers nothing is deleted; else
      one DELETE carries one `{record_id: id}` per nameserver, in order. */
  lemma DeleteCurrentNameserversSends(e: Env, s: State, domain: string)
    ensures var o := GetNameservers(e, s, domain);
      var r := DeleteCurrentNameservers(e, s, domain);
      && (!Truthy(o.val) ==> r == Out(o.st, false))
      && (Truthy(o.val) && o.val.Arr? ==>
            var ids := NameserverIds(o.val);
            && r == DeleteNameservers(e, o.st, domain, Arr(ids))
            && |ids| == |o.val.entries|
            && forall i :: 0 <= i < |ids| ==> Get(ids[i].1, "record_id") == Get(o.val.entries[i].1, "id"))
  {
  }

  /** The upper-cased `type` of a DNS record. */
  function TypeOf(record: Value): string {
    Upper(StrVal(Get(record, "type")))
  }

  /** `array_filter` on the records: keys kept, records whose type is excluded dropped. */
  function ExcludeTypes(records: Entries, exclude: seq<string>): Entries {
    if records == [] then []
    else
      var last := records[|records| - 1];
      ExcludeTypes(records[..|records| - 1], exclude) + (if TypeOf(last.1) in exclude then [] else [last])
  }

  /** A record is kept exactly when it was fetched and its type is not excluded. */
  lemma {:induction false} ExcludeTypesMembers(records: Entries, exclude: seq<string>)
    ensures forall e :: e in ExcludeTypes(records, exclude) <==> e in records && TypeOf(e.1) !in exclude
  {
    if records != [] {
      var init := records[..|records| - 1];
      ExcludeTypesMembers(init, exclude);
      assert records == init + [records[|records| - 1]];
    }
  }

  /** The filter keeps the fetched order: it distributes over concatenation. */
  lemma {:induction false} ExcludeTypesAppend(a: Entries, b: Entries, exclude: seq<string>)
    ensures ExcludeTypes(a + b, exclude) == ExcludeTypes(a, exclude) + ExcludeTypes(b, exclude)
    decreases |b|
  {
    if b == [] {
      assert a + b == a;
    } else {
      var b' := b[..|b| - 1];
      assert (a + b)[..|a + b| - 1] == a + b';
      ExcludeTypesAppend(a, b', exclude);
    }
  }

  const DefaultExclude: seq<string> := ["SOA", "NS"]

  function GetDnsRecords(e: Env, s: State, domain: string, exclude: seq<string>): Out<Value> {
    var o := DnsScoped(e, s, domain, "get", "dns/", None);
    if o.val.None? then Out(o.st, Null)
    else
      var records := ResultsOf(o.val.value);
      if records == Null || exclude == [] then Out(o.st, records)
      else Out(o.st, if records.Arr? then Arr(ExcludeTypes(records.entries, exclude)) else Null)
  }

  /** With the default exclusions no SOA or NS record (in any letter case)
      comes back; with none, the fetched records come back unfiltered. */
  lemma GetDnsRecordsExclusion(e: Env, s: State, domain: string)
    ensures var r := GetDnsRecords(e, s, domain, DefaultExclude).val;
      r.Arr? ==> forall i :: 0 <= i < |r.entries| ==> TypeOf(r.entries[i].1) != "SOA" && TypeOf(r.entries[i].1) != "NS"
    ensures var o := DnsScoped(e, s, domain, "get", "dns/", None);
      GetDnsRecords(e, s, domain, []).val == (if o.val.Some? then ResultsOf(o.val.value) else Null)
  {
    var r := GetDnsRecords(e, s, domain, DefaultExclude).val;
    if r.Arr? {
      var o := DnsScoped(e, s, domain, "get", "dns/", None);
      if o.val.Some? && ResultsOf(o.val.value).Arr? {
        ExcludeTypesMembers(ResultsOf(o.val.value).entries, DefaultExclude);
      }
      forall i | 0 <= i < |r.entries|
        ensures TypeOf(r.entries[i].1) != "SOA" && TypeOf(r.entries[i].1) != "NS"
      {
        assert r.entries[i] in r.entries;
      }
    }
  }

  function AddDnsRecords(e: Env, s: State, domain: string, payload: Value): Out<bool> {
    var o := DnsScoped(e, s, domain, "post", "dns/add/", Some(payload));
    Out(o.st, Succeeded(o.val))
  }

  function UpdateDnsRecords(e: Env, s: State, domain: string, payload: Value): Out<bool> {
    var o := DnsScoped(e, s, domain, "patch", "dns/edit/", Some(payload));
    Out(o.st, Succeeded(o.val))
  }

  /** `['record_id' => $record]` for each record id, keys kept. */
  function WrapRecordIds(records: Entries): (r: Entries)
    ensures |r| == |records|
    ensures forall i :: 0 <= i < |r| ==> r[i] == (records[i].0, Arr([(SKey("record_id"), records[i].1)]))
  {
    seq(|records|, i requires 0 <= i < |records| => (records[i].0, Arr([(SKey("record_id"), records[i].1)])))
  }

  function DeleteDnsRecords(e: Env, s: State, domain: string, records: Entries): Out<bool> {
    var o := DnsScoped(e, s, domain, "delete", "dns/delete/", Some(Arr(WrapRecordIds(records))));
    Out(o.st, Succeeded(o.val))
  }

  /** A dns_id-scoped call whose domain does not resolve issues nothing after
      the domain lookup; otherwise its one request goes to the resolved id. */
  lemma DnsScopedRequests(e: Env, s: State, domain: string, verb: string, prefix: string, payload: Option<Value>)
    ensures var d := GetDomain(e, s, domain);
      var o := DnsScoped(e, s, domain, verb, prefix, payload);
      && d.st.log == s.log + [ApiCall("get", [Str("domain/" + domain)])]
      && (!Truthy(d.val) ==> o.st.log == d.st.log && o.val.None?)
      && (Truthy(d.val) ==>
            o.st.log == d.st.log + [ApiCall(verb, var p := Str(prefix + StrVal(Get(d.val, "dns_id")));
                                          if payload.Some? then [p, payload.value] else [p])]
            && o.val == Some(At(e.script, e.offset + |s.log| + 1)))
  {
  }

  // ---------------------------------------------------------------------
  // Domains: delete, whois, availability, ordering

  function DeleteDomain(e: Env, s: State, domain: string): Out<bool> {
    var o := Send(e, s, "delete", [Str("domain/delete/" + domain)]);
    Out(o.st, Success(o.val))
  }

  function Whois(e: Env, s: State, domain: string): Out<Value> {
    var o := Send(e, s, "post", [Str("whois"), Arr([(SKey("domain"), Str(domain))])]);
    Out(o.st, ResultsOf(o.val))
  }

  /** `isAvailable` on a whois result: it succeeded, has `available`, and that is true as a boolean. */
  predicate Available(whois: Value)
    ensures Available(whois) <==> Truthy(Get(whois, "available"))
  {
    Truthy(whois) && IsSet(whois, "available") && Truthy(Get(whois, "available"))
  }

  function IsAvailable(e: Env, s: State, domain: string): Out<bool> {
    var o := Whois(e, s, domain);
    Out(o.st, Available(o.val))
  }

  /** The text after the first dot of a domain name; '' when there is none. */
  function TldOf(domain: string): string {
    var parts := SplitFirst(domain, '.');
    if parts.1.Some? then parts.1.value else ""
  }

  /** The extension item whose `extension` is `name`, first match. */
  function MatchExtension(items: seq<Value>, name: string): Value {
    if items == [] then Null
    else if IsSet(items[0], "extension") && Get(items[0], "extension") == Str(name) then items[0]
    else MatchExtension(items[1..], name)
  }

  lemma {:induction false} MatchExtensionFirst(items: seq<Value>, name: string, i: nat)
    requires i < |items| && Get(items[i], "extension") == Str(name)
    requires forall j :: 0 <= j < i ==> Get(items[j], "extension") != Str(name)
    ensures MatchExtension(items, name) == items[i]
  {
    if i > 0 {
      MatchExtensionFirst(items[1..], name, i - 1);
    }
  }

  lemma {:induction false} MatchExtensionNone(items: seq<Value>, name: string)
    requires forall j :: 0 <= j < |items| ==> Get(items[j], "extension") != Str(name)
    ensures MatchExtension(items, name) == Null
  {
    if items != [] {
      MatchExtensionNone(items[1..], name);
    }
  }

  /** `getExtension`: leading and trailing dots of the argument are ignored. */
  function GetExtension(e: Env, s: State, extension: string): Out<Value> {
    var o := GetExtensions(e, s, false);
    Out(o.st, MatchExtension(ValuesOf(o.val), Trim(extension, {'.'})))
  }

  /** The allowed terms `[1, 2, 3]`, which `order` wraps in a second array. */
  const AllowedYears: Value := ListOf([Int(1), Int(2), Int(3)])

  /** The `year` `order` sends: membership is tested in `[[1, 2, 3]]`, so only
      the array `[1, 2, 3]` itself is kept and every number becomes 1. */
  function YearsSent(years: Value): (y: Value)
    ensures !years.Arr? ==> y == Int(1)
    ensures y == Int(1) || y == AllowedYears
  {
    if years == AllowedYears then years else Int(1)
  }

  /** The `orders/add/` payload before the auth code: the extension's id, the
      domain, the holder and the term. */
  function OrderBase(extension: Value, domain: string, holderId: Value, year: Value): Entries {
    Put(Put(Put(Put([], SKey("extension_id"), Get(extension, "extension_id")),
                SKey("domain"), Str(domain)),
            SKey("holder_id"), holderId),
        SKey("year"), year)
  }

  /** The `orders/add/` payload; `authcode` only for a non-empty auth code. */
  function OrderPayload(extension: Value, domain: string, holderId: Value, year: Value, authCode: Value): (p: Entries)
    ensures Lookup(p, SKey("extension_id")) == Get(extension, "extension_id")
    ensures Lookup(p, SKey("domain")) == Str(domain)
    ensures Lookup(p, SKey("holder_id")) == holderId
    ensures Lookup(p, SKey("year")) == year
    ensures SKey("authcode") in KeysOf(p) <==> Truthy(authCode)
    ensures Truthy(authCode) ==> Lookup(p, SKey("authcode")) == authCode
  {
    var base := OrderBase(extension, domain, holderId, year);
    if Truthy(authCode) then Put(base, SKey("authcode"), authCode) else base
  }

  function Order(e: Env, s: State, domain: string, holderId: Value, years: Value, authCode: Value): Out<bool> {
    var o := GetExtension(e, s, TldOf(domain));
    if !Truthy(o.val) then Out(o.st, false)
    else
      var payload := OrderPayload(o.val, domain, holderId, YearsSent(years), authCode);
      var o2 := Send(e, o.st, "post", [Str("orders/add/"), Arr(payload)]);
      Out(o2.st, Success(o2.val))
  }

  /** An unknown extension issues no order; a known one issues exactly one
      POST carrying the term `YearsSent` keeps, which is 1 for any number of
      years. */
  lemma OrderRequests(e: Env, s: State, domain: string, holderId: Value, years: Value, authCode: Value)
    ensures var o := GetExtension(e, s, TldOf(domain));
      var r := Order(e, s, domain, holderId, years, authCode);
      && (!Truthy(o.val) ==> r == Out(o.st, false))
      && (Truthy(o.val) ==>
            var p := OrderPayload(o.val, domain, holderId, YearsSent(years), authCode);
            && r.st.log == o.st.log + [ApiCall("post", [Str("orders/add/"), Arr(p)])]
            && (!years.Arr? ==> Lookup(p, SKey("year")) == Int(1))
            && (years == AllowedYears ==> Lookup(p, SKey("year")) == AllowedYears))
  {
    var o := GetExtension(e, s, TldOf(domain));
    if Truthy(o.val) {
      var p := OrderPayload(o.val, domain, holderId, YearsSent(years), authCode);
      var o2 := Send(e, o.st, "post", [Str("orders/add/"), Arr(p)]);
      assert Order(e, s, domain, holderId, years, authCode) == Out(o2.st, Success(o2.val));
    }
  }
}
