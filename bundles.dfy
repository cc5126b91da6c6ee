/** The bundle-family operations of the client (bundles.go). Each one sends a
    single call to the bundle endpoint through the transport and, for two of
    them, decodes the raw result with a JSON decoder given as a parameter. */
module Bundles {
  import opened Wrappers
  import Json
  import opened Rpc
  import QueryString

  datatype TipAccount = TipAccount(address: string)

  /** One entry of a getBundleStatuses answer. `errOk` is the `err.Ok` field:
      None when it is JSON null or absent (Go's nil). */
  datatype BundleStatus = BundleStatus(
    bundleId: string, transactions: seq<string>, slot: int,
    confirmationStatus: string, errOk: Option<Json.Value>)

  datatype BundleStatusResponse = BundleStatusResponse(contextSlot: int, value: seq<BundleStatus>)

  /** An operation's effect: the call it handed to the transport and what it returned. */
  datatype Sent<T> = Sent(call: Call, result: Result<T>)

  /** Decoders standing for json.Unmarshal into the named Go type. */
  type StringsDecoder = RawMessage -> Result<seq<string>>
  type StatusesDecoder = RawMessage -> Result<BundleStatusResponse>

  /** The endpoint shared by every bundle-family call: "/bundles", with the
      access token as the only query parameter when one is configured. */
  function BundlesEndpoint(uuid: string): (e: string)
    ensures e == QueryString.WithQuery("/bundles", if uuid == "" then [] else ["uuid=" + uuid])
  {
    if uuid == "" then "/bundles" else "/bundles" + "?uuid=" + uuid
  }

  /** Read back by a server, the bundle endpoint names the path "/bundles"
      and carries `uuid=<token>` exactly when a token is configured (as long
      as the token contains no `&`, which the client does not escape). */
  lemma BundlesEndpointParses(uuid: string)
    requires '&' !in uuid
    ensures QueryString.ParseEndpoint(BundlesEndpoint(uuid))
         == ("/bundles", if uuid == "" then [] else ["uuid=" + uuid])
  {
    var params := if uuid == "" then [] else ["uuid=" + uuid];
    forall i | 0 <= i < |params| ensures '&' !in params[i] {
      assert params[i] == "uuid=" + uuid;
    }
    QueryString.ParseWithQuery("/bundles", params);
  }

  /** GetTipAccounts: method "getTipAccounts" with nil params; the raw
      answer, or the transport's error, is returned as it is. */
  function GetTipAccounts(c: Client, net: Transport): (r: Sent<RawMessage>)
    ensures r.call.endpoint == if c.uuid == "" then "/bundles" else "/bundles?uuid=" + c.uuid
    ensures r.call.rpcMethod == "getTipAccounts" && r.call.params == Json.JNull
    ensures r.result == net(r.call)
  {
    var call := Call(BundlesEndpoint(c.uuid), "getTipAccounts", Json.JNull);
    Sent(call, net(call))
  }

  /** GetRandomTipAccount: a transport error is returned unchanged; an answer
      that does not decode to a list of strings, or decodes to an empty list,
      is an error; otherwise the account is some member of the pool, picked
      by an arbitrary in-range index (rand.Intn). No account comes with an error. */
  method GetRandomTipAccount(c: Client, net: Transport, decode: StringsDecoder)
    returns (call: Call, result: Result<TipAccount>)
    ensures call == GetTipAccounts(c, net).call
    ensures net(call).Err? ==> result == Err(net(call).error)
    ensures net(call).Ok? && decode(net(call).value).Err? ==>
      result == Err(Wrapped("failed to unmarshal tip accounts", decode(net(call).value).error))
    ensures net(call).Ok? && decode(net(call).value).Ok? && decode(net(call).value).value == [] ==>
      result == Err(Failure("no tip accounts available"))
    ensures net(call).Ok? && decode(net(call).value).Ok? && decode(net(call).value).value != [] ==>
      result.Ok? && result.value.address in decode(net(call).value).value
  {
    var sent := GetTipAccounts(c, net);
    call := sent.call;
    if sent.result.Err? {
      return call, Err(sent.result.error);
    }
    var tipAddresses := decode(sent.result.value);
    if tipAddresses.Err? {
      return call, Err(Wrapped("failed to unmarshal tip accounts", tipAddresses.error));
    }
    var pool := tipAddresses.value;
    if |pool| == 0 {
      return call, Err(Failure("no tip accounts available"));
    }
    var randomIndex :| 0 <= randomIndex < |pool|;
    result := Ok(TipAccount(pool[randomIndex]));
  }

  /** The call GetBundleStatuses issues for the given ids. */
  function BundleStatusesCall(c: Client, bundleIds: seq<string>): (call: Call)
    ensures call.endpoint == BundlesEndpoint(c.uuid) && call.rpcMethod == "getBundleStatuses"
    ensures Json.StringLists(call.params) == Some([bundleIds])
  {
    Json.StringListsRoundTrip([bundleIds]);
    Call(BundlesEndpoint(c.uuid), "getBundleStatuses", Json.StringMatrix([bundleIds]))
  }

  /** GetBundleStatuses: method "getBundleStatuses"; the id list travels
      wrapped in exactly one more list, so a server reads back one list: the
      ids, in order. Transport errors propagate; an undecodable answer is a
      wrapped decode error. */
  function GetBundleStatuses(c: Client, bundleIds: seq<string>, net: Transport, decode: StatusesDecoder)
    : (r: Sent<BundleStatusResponse>)
    ensures r.call == BundleStatusesCall(c, bundleIds)
    ensures r.call.endpoint == if c.uuid == "" then "/bundles" else "/bundles?uuid=" + c.uuid
    ensures r.call.rpcMethod == "getBundleStatuses"
    ensures r.call.params == Json.JArray([Json.StringArray(bundleIds)])
    ensures Json.StringLists(r.call.params) == Some([bundleIds])
    ensures net(r.call).Err? ==> r.result == Err(net(r.call).error)
    ensures net(r.call).Ok? && decode(net(r.call).value).Err? ==>
      r.result == Err(Wrapped("failed to unmarshal bundle statuses", decode(net(r.call).value).error))
    ensures net(r.call).Ok? && decode(net(r.call).value).Ok? ==> r.result == decode(net(r.call).value)
  {
    var call := BundleStatusesCall(c, bundleIds);
    assert call.params.items[0] == Json.StringArray(bundleIds);
    match net(call)
    case Err(e) => Sent(call, Err(e))
    case Ok(body) =>
      match decode(body)
      case Err(e) => Sent(call, Err(Wrapped("failed to unmarshal bundle statuses", e)))
      case Ok(response) => Sent(call, Ok(response))
  }

  /** SendBundle: method "sendBundle"; params pass through unchanged. */
  function SendBundle(c: Client, params: Json.Value, net: Transport): (r: Sent<RawMessage>)
    ensures r.call.endpoint == if c.uuid == "" then "/bundles" else "/bundles?uuid=" + c.uuid
    ensures r.call.rpcMethod == "sendBundle" && r.call.params == params
    ensures r.result == net(r.call)
  {
    var call := Call(BundlesEndpoint(c.uuid), "sendBundle", params);
    Sent(call, net(call))
  }

  /** GetInflightBundleStatuses: method "getInflightBundleStatuses"; params
      pass through unchanged and the raw answer is not decoded. */
  function GetInflightBundleStatuses(c: Client, params: Json.Value, net: Transport): (r: Sent<RawMessage>)
    ensures r.call.endpoint == if c.uuid == "" then "/bundles" else "/bundles?uuid=" + c.uuid
    ensures r.call.rpcMethod == "getInflightBundleStatuses" && r.call.params == params
    ensures r.result == net(r.call)
  {
    var call := Call(BundlesEndpoint(c.uuid), "getInflightBundleStatuses", params);
    Sent(call, net(call))
  }
}
