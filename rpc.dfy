/** The client's connection settings and the single JSON-RPC exchange every
    operation goes through (rpc.go's sendRequest). The HTTP round trip itself
    is a parameter: what comes back from the network is an input. */
module Rpc {
  import opened Wrappers
  import Json

  /** A JitoJsonRpcClient: the service's base URL and an optional access
      token (the empty string when none is configured). */
  datatype Client = Client(baseUrl: string, uuid: string)

  /** What an operation hands to sendRequest: a path below the base URL,
      a JSON-RPC method name and the positional parameters. */
  datatype Call = Call(endpoint: string, rpcMethod: string, params: Json.Value)

  /** The result field of a response, as undecoded JSON text. */
  type RawMessage = string

  /** sendRequest as its callers see it: one call, answered with the raw
      result or an error. */
  type Transport = Call -> Result<RawMessage>

  datatype Header = Header(name: string, value: string)

  /** The HTTP request sendRequest issues, with its JSON-RPC envelope. */
  datatype Request = Request(
    url: string, verb: string, headers: seq<Header>,
    jsonrpc: string, id: int, rpcMethod: string, params: Json.Value)

  datatype RpcError = RpcError(code: int, message: string)

  /** A decoded response envelope; `result` is "" when the field is absent. */
  datatype Response = Response(jsonrpc: string, id: int, result: RawMessage, error: Option<RpcError>)

  /** How the HTTP round trip ended: the request could not be sent, the body
      was not a JSON-RPC envelope, or an envelope came back. */
  datatype Exchange =
    | SendFailed(cause: Error)
    | Undecodable(cause: Error)
    | Received(response: Response)

  /** The value of the first header with the given name. */
  function HeaderValue(headers: seq<Header>, name: string): (r: Option<string>)
    ensures r.Some? ==> Header(name, r.value) in headers
    ensures r.None? ==> forall h :: h in headers ==> h.name != name
  {
    if headers == [] then None
    else if headers[0].name == name then Some(headers[0].value)
    else HeaderValue(headers[1..], name)
  }

  const JsonRpcVersion := "2.0"
  const RequestId := 1

  /** The request for one call: POST to base URL + endpoint, envelope
      version "2.0" with id 1, and the auth header only when a token is set. */
  function BuildRequest(c: Client, call: Call): (req: Request)
    ensures req.url == c.baseUrl + call.endpoint && req.verb == "POST"
    ensures req.jsonrpc == "2.0" && req.id == 1
    ensures req.rpcMethod == call.rpcMethod && req.params == call.params
    ensures HeaderValue(req.headers, "Content-Type") == Some("application/json")
    ensures HeaderValue(req.headers, "x-jito-auth") == if c.uuid == "" then None else Some(c.uuid)
    ensures |req.headers| == if c.uuid == "" then 1 else 2
  {
    var headers := [Header("Content-Type", "application/json")]
      + (if c.uuid != "" then [Header("x-jito-auth", c.uuid)] else []);
    Request(c.baseUrl + call.endpoint, "POST", headers, JsonRpcVersion, RequestId, call.rpcMethod, call.params)
  }

  /** sendRequest: build the request, exchange it, and dispatch on the
      envelope. The raw result is returned only when the exchange produced an
      envelope whose error field is empty; an RPC error surfaces its message. */
  function SendRequest(c: Client, call: Call, http: Request -> Exchange): (r: Result<RawMessage>)
    ensures var x := http(BuildRequest(c, call));
      && (r.Ok? <==> x.Received? && x.response.error.None?)
      && (r.Ok? ==> r.value == x.response.result)
      && (x.SendFailed? ==> r == Err(Wrapped("error sending request", x.cause)))
      && (x.Undecodable? ==> r == Err(Wrapped("error decoding response", x.cause)))
      && (x.Received? && x.response.error.Some? ==>
            r == Err(Failure("RPC error: " + x.response.error.value.message)))
  {
    match http(BuildRequest(c, call))
    case SendFailed(e) => Err(Wrapped("error sending request", e))
    case Undecodable(e) => Err(Wrapped("error decoding response", e))
    case Received(resp) =>
      if resp.error.Some? then Err(Failure("RPC error: " + resp.error.value.message))
      else Ok(resp.result)
  }
}
