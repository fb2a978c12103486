/** The `Http` class: a thin layer that turns `get`/`post`/`delete`/`patch`
    calls into requests against a base URI, with the payload as the query
    string of a GET and as the body of the other verbs. */
module Http {
  import opened Php
  import opened Wire

  /** The verbs `__call` accepts, upper case. */
  const Methods: seq<string> := ["GET", "POST", "DELETE", "PATCH"]

  /** The verbs whose payload travels as the request body, as `request` lists them. */
  const BodyVerbs: Value := Arr([(IKey(0), Str("post")), (IKey(1), Str("patch")), (IKey(2), Str("delete"))])

  /** The same verbs as `isMethod` compares them, upper case. */
  const BodyMethods: seq<string> := ["POST", "PATCH", "DELETE"]

  // ---------------------------------------------------------------------
  // Request shaping

  /** The uri argument of `__call`: the first argument when it is a string, else ''. */
  function UriArg(arguments: seq<Value>): (uri: string)
    ensures (|arguments| == 0 || !arguments[0].Str?) ==> uri == ""
    ensures |arguments| > 0 && arguments[0].Str? ==> uri == arguments[0].s
  {
    if |arguments| > 0 && arguments[0].Str? then arguments[0].s else ""
  }

  /** The payload argument of `__call`: the second argument when it is an array, else []. */
  function PayloadArg(arguments: seq<Value>): (payload: Entries)
    ensures (|arguments| < 2 || !arguments[1].Arr?) ==> payload == []
    ensures |arguments| >= 2 && arguments[1].Arr? ==> payload == arguments[1].entries
  {
    if |arguments| >= 2 && arguments[1].Arr? then arguments[1].entries else []
  }

  /** The base URI without its trailing slashes, one slash, then the uri
      without its leading whitespace. */
  function JoinUrl(base: string, uri: string): string {
    RTrim(base, {'/'}) + "/" + LTrim(uri, Whitespace)
  }

  function QueryPair(e: (Key, Value)): string {
    KeyText(e.0) + "=" + (if e.1.Bool? then (if e.1.b then "1" else "0") else StrVal(e.1))
  }

  /** `http_build_query`, flattened: `key=value` pairs joined by '&', entries
      holding null skipped, booleans sent as 1 and 0; without percent-encoding
      and without expanding nested arrays. */
  function BuildQuery(payload: Entries): string {
    if payload == [] then ""
    else if payload[0].1 == Null then BuildQuery(payload[1..])
    else
      var rest := BuildQuery(payload[1..]);
      QueryPair(payload[0]) + (if rest == "" then "" else "&" + rest)
  }

  /** `array_map('strtoupper', array_filter($methods, 'is_string'))`, values only. */
  function UpperStrings(es: Entries): (r: seq<string>)
    ensures forall x :: x in r <==> exists i :: 0 <= i < |es| && es[i].1.Str? && Upper(es[i].1.s) == x
  {
    if es == [] then []
    else
      var rest := UpperStrings(es[1..]);
      assert forall i :: 1 <= i < |es| ==> es[i] == es[1..][i - 1];
      if es[0].1.Str? then [Upper(es[0].1.s)] + rest else rest
  }

  /** `isMethod`: a string names the current method in any letter case; an
      array does when one of its string entries does; anything else never. */
  function IsMethodOf(current: string, m: Value): (r: bool)
    ensures m.Str? ==> (r <==> current == Upper(m.s))
    ensures m.Arr? ==> (r <==> exists i :: 0 <= i < |m.entries| && m.entries[i].1.Str? && Upper(m.entries[i].1.s) == current)
    ensures !m.Str? && !m.Arr? ==> !r
  {
    if m.Arr? then current in UpperStrings(m.entries)
    else if m.Str? then current == Upper(m.s)
    else false
  }

  function HeaderLine(e: (Key, Value)): string {
    KeyText(e.0) + ": " + StrVal(e.1)
  }

  /** The header lines, one `Key: Value` line per header in insertion order. */
  function RenderHeaders(headers: Entries): (lines: seq<string>)
    ensures |lines| == |headers|
    ensures forall i :: 0 <= i < |headers| ==> lines[i] == HeaderLine(headers[i])
  {
    if headers == [] then [] else RenderHeaders(headers[..|headers| - 1]) + [HeaderLine(headers[|headers| - 1])]
  }

  /** The URL `request` sends to while `current` is the method in force. */
  function RequestUrl(current: string, base: string, uri: string, payload: Entries): string {
    var url := JoinUrl(base, uri);
    if current == "GET" && payload != [] then RTrim(url, {'?'}) + "?" + BuildQuery(payload) else url
  }

  /** The request `request(verb, uri, payload)` issues while `current` is the method in force. */
  function RequestFor(current: string, verb: string, base: string, headers: Entries, uri: string, payload: Entries): Request {
    Request(verb,
            RequestUrl(current, base, uri, payload),
            if current in BodyMethods then Some(payload) else None,
            RenderHeaders(headers))
  }

  lemma MethodNames()
    ensures Upper("get") == "GET" && Upper("post") == "POST"
    ensures Upper("patch") == "PATCH" && Upper("delete") == "DELETE"
  {
    assert Upper("get") == "GET";
    assert Upper("post") == "POST";
    assert Upper("patch") == "PATCH";
    assert Upper("delete") == "DELETE";
  }

  /** The two `isMethod` tests `request` makes: 'get', and the list
      ['post', 'patch', 'delete']. */
  lemma {:induction false} RequestTests(current: string)
    ensures IsMethodOf(current, Str("get")) <==> current == "GET"
    ensures IsMethodOf(current, BodyVerbs) <==> current in BodyMethods
  {
    MethodNames();
    var es := BodyVerbs.entries;
    assert es[0].1 == Str("post") && es[1].1 == Str("patch") && es[2].1 == Str("delete");
    if current in BodyMethods {
      if current == "POST" { assert Upper(es[0].1.s) == current; }
      else if current == "PATCH" { assert Upper(es[1].1.s) == current; }
      else { assert Upper(es[2].1.s) == current; }
    }
  }

  /** A request issued through `__call` carries its payload as the body for
      POST, PATCH and DELETE and never for GET; only a GET with a non-empty
      payload has a query string appended (after any trailing '?' is dropped). */
  lemma {:induction false} PayloadPlacement(verb: string, base: string, headers: Entries, uri: string, payload: Entries)
    requires verb in Methods
    ensures var r := RequestFor(verb, verb, base, headers, uri, payload);
      && r.verb == verb
      && (verb == "GET" ==> r.body == None)
      && (verb != "GET" ==> r.body == Some(payload))
      && (verb == "GET" && payload != [] ==> r.url == RTrim(JoinUrl(base, uri), {'?'}) + "?" + BuildQuery(payload))
      && (verb != "GET" || payload == [] ==> r.url == JoinUrl(base, uri))
      && r.headers == RenderHeaders(headers)
  {
  }

  /** With a base URI that has no trailing '/' and a uri that does not start
      with whitespace, the URL is the plain join. */
  lemma JoinUrlPlain(base: string, uri: string)
    requires base == [] || base[|base| - 1] != '/'
    requires uri == [] || uri[0] !in Whitespace
    ensures JoinUrl(base, uri) == base + "/" + uri
  {
  }

  /** Trailing slashes on the base URI do not change the URL. */
  lemma {:induction false} JoinUrlIgnoresTrailingSlash(base: string, uri: string)
    ensures JoinUrl(base + "/", uri) == JoinUrl(base, uri)
  {
    assert (base + "/")[..|base + "/"| - 1] == base;
  }

  /** Only leading whitespace is removed from the uri: a leading '/' stays,
      so the URL then holds two slashes in a row. */
  lemma {:induction false} JoinUrlKeepsLeadingSlash(base: string, uri: string)
    requires uri != [] && uri[0] == '/'
    ensures JoinUrl(base, uri) == RTrim(base, {'/'}) + "//" + uri[1..]
  {
    assert LTrim(uri, Whitespace) == uri;
    assert "/" + uri == "//" + uri[1..];
  }

  class Http {
    const transport: Transport
    var baseUri: string
    var headers: Entries
    /** The verb of the call in progress, set by `__call` and read by `isMethod`. */
    var currentMethod: string

    constructor (options: Value, transport: Transport)
      ensures this.transport == transport && currentMethod == ""
      ensures baseUri == (if IsSet(options, "base_uri") then StrVal(Get(options, "base_uri")) else "")
      ensures headers == (if Get(options, "headers").Arr? then Get(options, "headers").entries else [])
    {
      this.transport := transport;
      baseUri := "";
      headers := [];
      currentMethod := "";
      new;
      ParseOptions(options);
    }

    /** Takes `base_uri` when set and `headers` when it is an array; each
        field is left alone otherwise. */
    method ParseOptions(options: Value)
      modifies this`baseUri, this`headers
      ensures baseUri == (if IsSet(options, "base_uri") then StrVal(Get(options, "base_uri")) else old(baseUri))
      ensures headers == (if Get(options, "headers").Arr? then Get(options, "headers").entries else old(headers))
    {
      if IsSet(options, "base_uri") {
        baseUri := StrVal(Get(options, "base_uri"));
      }
      var h := Get(options, "headers");
      if h != Null && h.Arr? {
        headers := h.entries;
      }
    }

    /** `__call`: an accepted verb, in any letter case, becomes the current
        method and issues exactly one request; any other name issues none. */
    method Call(name: string, arguments: seq<Value>) returns (response: Option<Response>)
      modifies this`currentMethod, transport`log
      ensures Upper(name) in Methods ==>
        && currentMethod == Upper(name)
        && transport.log == old(transport.log) + [RequestFor(Upper(name), Upper(name), baseUri, headers, UriArg(arguments), PayloadArg(arguments))]
        && response == Some(At(transport.script, |old(transport.log)|))
      ensures Upper(name) !in Methods ==>
        response == None && currentMethod == old(currentMethod) && transport.log == old(transport.log)
    {
      response := None;
      var verb := Upper(name);
      if verb in Methods {
        currentMethod := verb;
        var uri := if |arguments| > 0 && arguments[0].Str? then arguments[0].s else "";
        var payload := if |arguments| > 1 && arguments[1].Arr? then arguments[1].entries else [];
        var r := Request(verb, uri, payload);
        response := Some(r);
      }
    }

    /** `request`: builds the URL, body and header lines and hands them to the transport. */
    method Request(verb: string, uri: string, payload: Entries) returns (response: Response)
      modifies transport`log
      ensures transport.log == old(transport.log) + [RequestFor(currentMethod, verb, baseUri, headers, uri, payload)]
      ensures response == At(transport.script, |old(transport.log)|)
    {
      RequestTests(currentMethod);
      var url := JoinUrl(baseUri, uri);
      if IsMethod(Str("get")) && payload != [] {
        url := RTrim(url, {'?'}) + "?" + BuildQuery(payload);
      }
      assert url == RequestUrl(currentMethod, baseUri, uri, payload);
      var body: Option<Entries> := None;
      if IsMethod(BodyVerbs) {
        body := Some(payload);
      }
      var lines := GetHeaders();
      var request := Wire.Request(verb, url, body, lines);
      assert request == RequestFor(currentMethod, verb, baseUri, headers, uri, payload);
      response := transport.Send(request);
    }

    /** `getHeaders`: one `Key: Value` line per configured header, in order. */
    method GetHeaders() returns (lines: seq<string>)
      ensures lines == RenderHeaders(headers)
    {
      lines := [];
      if headers != [] {
        for i := 0 to |headers|
          invariant lines == RenderHeaders(headers[..i])
        {
          assert headers[..i + 1][..i] == headers[..i];
          lines := lines + [HeaderLine(headers[i])];
        }
        assert headers[..|headers|] == headers;
      }
    }

    function IsMethod(m: Value): bool
      reads this
    {
      IsMethodOf(currentMethod, m)
    }
  }
}
