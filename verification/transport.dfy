/** The wire below the `Http` class. Opening a curl handle and parsing the raw
    reply are replaced by an object that records every request it is given
    and answers the k-th request with the k-th response of a fixed script. */
module Wire {
  import opened Php

  /** One request as it leaves the module: the verb, the full URL, the form
      payload sent as the body (None when no body is set) and the header
      lines. The body is kept as the payload array; its form encoding is left
      abstract. */
  datatype Request = Request(verb: string, url: string, body: Option<Entries>, headers: seq<string>)

  /** A reply: the status code and the value its body decodes to as JSON
      (Null when the body is not JSON, as `json_decode` then yields null). */
  datatype Response = Response(status: int, body: Value)

  /** What a request past the end of the script receives: no status, no body. */
  const NoResponse := Response(0, Null)

  /** The reply to the k-th request. */
  function At(script: seq<Response>, k: nat): Response {
    if k < |script| then script[k] else NoResponse
  }

  class Transport {
    const script: seq<Response>
    var log: seq<Request>

    constructor (script: seq<Response>)
      ensures this.script == script && log == []
    {
      this.script := script;
      log := [];
    }

    method Send(request: Request) returns (response: Response)
      modifies this`log
      ensures log == old(log) + [request]
      ensures response == At(script, |old(log)|)
    {
      response := At(script, |log|);
      log := log + [request];
    }
  }
}
