/** Single-transaction submission (transactions.go). */
module Transactions {
  import opened Wrappers
  import Json
  import opened Rpc
  import QueryString

  /** The query parameters SendTxn attaches: "bundleOnly=true" first when
      asked, "uuid=<token>" last when a token is configured, nothing else. */
  function TxnQuery(bundleOnly: bool, uuid: string): (q: seq<string>)
    ensures |q| == (if bundleOnly then 1 else 0) + (if uuid != "" then 1 else 0)
    ensures bundleOnly ==> q[0] == "bundleOnly=true"
    ensures uuid != "" ==> q[|q| - 1] == "uuid=" + uuid
    ensures forall p :: p in q ==> p == "bundleOnly=true" || p == "uuid=" + uuid
  {
    (if bundleOnly then ["bundleOnly=true"] else []) + (if uuid != "" then ["uuid=" + uuid] else [])
  }

  /** SendTxn: appends the query parameters one by one, then writes the
      endpoint as "/transactions", followed by "?" and the parameters joined
      with "&" only when there is at least one. Method "sendTransaction",
      params unchanged, and the transport's answer is returned as it is. */
  method SendTxn(c: Client, params: Json.Value, bundleOnly: bool, net: Transport)
    returns (call: Call, result: Result<RawMessage>)
    ensures call.endpoint == QueryString.WithQuery("/transactions", TxnQuery(bundleOnly, c.uuid))
    ensures !bundleOnly && c.uuid == "" ==> call.endpoint == "/transactions"
    ensures call.rpcMethod == "sendTransaction" && call.params == params
    ensures result == net(call)
  {
    var endpoint := "/transactions";
    var queryParams: seq<string> := [];

    if bundleOnly {
      queryParams := queryParams + ["bundleOnly=true"];
    }
    if c.uuid != "" {
      queryParams := queryParams + ["uuid=" + c.uuid];
    }

    if |queryParams| > 0 {
      endpoint := endpoint + "?" + QueryString.Join(queryParams, "&");
    }

    call := Call(endpoint, "sendTransaction", params);
    result := net(call);
  }

  /** Read back by a server, the transaction endpoint names the path
      "/transactions" and exactly the query parameters of TxnQuery, in order;
      it has a "?" exactly when one of them is present. (The token is not
      escaped, hence the requirement that it contain no "&".) */
  lemma TxnEndpointParses(bundleOnly: bool, uuid: string)
    requires '&' !in uuid
    ensures var e := QueryString.WithQuery("/transactions", TxnQuery(bundleOnly, uuid));
      && QueryString.ParseEndpoint(e) == ("/transactions", TxnQuery(bundleOnly, uuid))
      && ('?' in e <==> bundleOnly || uuid != "")
  {
    var q := TxnQuery(bundleOnly, uuid);
    forall i | 0 <= i < |q| ensures '&' !in q[i] {
      assert q[i] in q;
    }
    QueryString.ParseWithQuery("/transactions", q);
    QueryString.QuestionMarkIffParams("/transactions", q);
  }

  /** The endpoints SendTxn produces with a token configured, written out. */
  lemma TxnEndpointsWithToken(uuid: string)
    requires uuid != ""
    ensures QueryString.WithQuery("/transactions", TxnQuery(false, uuid)) == "/transactions?uuid=" + uuid
    ensures QueryString.WithQuery("/transactions", TxnQuery(true, uuid))
         == "/transactions?bundleOnly=true&uuid=" + uuid
  {
    var both := ["bundleOnly=true", "uuid=" + uuid];
    assert TxnQuery(true, uuid) == both;
    assert both[1..] == ["uuid=" + uuid];
    calc {
      QueryString.WithQuery("/transactions", both);
      "/transactions" + "?" + QueryString.Join(both, "&");
      "/transactions" + "?" + ("bundleOnly=true" + "&" + QueryString.Join(["uuid=" + uuid], "&"));
      "/transactions" + "?" + ("bundleOnly=true" + "&" + ("uuid=" + uuid));
      { assert "/transactions" + "?" + "bundleOnly=true" + "&" + "uuid=" == "/transactions?bundleOnly=true&uuid="; }
      "/transactions?bundleOnly=true&uuid=" + uuid;
    }
  }
}
