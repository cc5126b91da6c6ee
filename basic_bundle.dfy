/** The submission half of basic_bundle.go's main: pick a tip account,
    build the tip and the main transaction, and send them as one bundle of
    two, tip first. Building, signing and serialising transactions belong to
    the ledger SDK and are parameters here; `Tx` is its opaque transaction. */
module BasicBundle {
  import opened Wrappers
  import Json
  import opened Rpc
  import opened Bundles

  /** The bundle request: one bundle whose two transactions are the tip
      transaction, then the main transaction. */
  function BundleRequest(tipTx: string, mainTx: string): (p: Json.Value)
    ensures Json.StringLists(p) == Some([[tipTx, mainTx]])
  {
    Json.StringListsRoundTrip([[tipTx, mainTx]]);
    Json.StringMatrix([[tipTx, mainTx]])
  }

  /** main from the tip-account lookup to the decoded bundle id. Every
      failure is fatal (log.Fatalf) and is returned as the error. On the way
      to success exactly two calls are made: getTipAccounts, then sendBundle
      with the encoded tip transaction (to an account of the pool) first and
      the encoded main transaction second. */
  method SubmitBasicBundle<Tx>(
    c: Client, net: Transport, decodeStrings: StringsDecoder,
    createTip: string -> Result<Tx>, createMain: Result<Tx>, encode: Tx -> Result<string>,
    decodeId: RawMessage -> Result<string>)
    returns (calls: seq<Call>, tip: Option<TipAccount>, bundle: Option<seq<string>>, bundleId: Result<string>)
    ensures 1 <= |calls| <= 2 && calls[0] == GetTipAccounts(c, net).call
    ensures tip.Some? ==>
      && net(calls[0]).Ok? && decodeStrings(net(calls[0]).value).Ok?
      && tip.value.address in decodeStrings(net(calls[0]).value).value
    ensures tip.Some? <==>
      && net(calls[0]).Ok? && decodeStrings(net(calls[0]).value).Ok?
      && decodeStrings(net(calls[0]).value).value != []
    ensures tip.None? ==> calls == [calls[0]] && bundle.None? && bundleId.Err?
    ensures bundle.Some? <==>
      && tip.Some?
      && createTip(tip.value.address).Ok? && createMain.Ok?
      && encode(createTip(tip.value.address).value).Ok? && encode(createMain.value).Ok?
    ensures bundle.Some? <==> |calls| == 2
    ensures bundle.Some? ==>
      && tip.Some?
      && |bundle.value| == 2
      && createTip(tip.value.address).Ok? && encode(createTip(tip.value.address).value) == Ok(bundle.value[0])
      && createMain.Ok? && encode(createMain.value) == Ok(bundle.value[1])
      && calls[1] == SendBundle(c, BundleRequest(bundle.value[0], bundle.value[1]), net).call
      && Json.StringLists(calls[1].params) == Some([bundle.value])
    ensures bundleId.Ok? <==>
      bundle.Some? && net(calls[1]).Ok? && decodeId(net(calls[1]).value).Ok?
    ensures bundleId.Ok? ==> bundleId == decodeId(net(calls[1]).value)
  {
    var tipCall, tipAccount := GetRandomTipAccount(c, net, decodeStrings);
    calls, tip, bundle := [tipCall], None, None;
    if tipAccount.Err? {
      return calls, tip, bundle, Err(Wrapped("Failed to get random tip account", tipAccount.error));
    }
    tip := Some(tipAccount.value);

    var tipTx := createTip(tipAccount.value.address);
    if tipTx.Err? {
      return calls, tip, bundle, Err(Wrapped("Failed to create tip transaction", tipTx.error));
    }
    var mainTx := createMain;
    if mainTx.Err? {
      return calls, tip, bundle, Err(Wrapped("Failed to create main transaction", mainTx.error));
    }

    var encodedTip := encode(tipTx.value);
    if encodedTip.Err? {
      return calls, tip, bundle, Err(Wrapped("Failed to serialize transaction", encodedTip.error));
    }
    var encodedMain := encode(mainTx.value);
    if encodedMain.Err? {
      return calls, tip, bundle, Err(Wrapped("Failed to serialize transaction", encodedMain.error));
    }
    var bundleRequest := BundleRequest(encodedTip.value, encodedMain.value);
    bundle := Some([encodedTip.value, encodedMain.value]);

    var sent := SendBundle(c, bundleRequest, net);
    calls := calls + [sent.call];
    if sent.result.Err? {
      return calls, tip, bundle, Err(Wrapped("Failed to send bundle", sent.result.error));
    }
    var id := decodeId(sent.result.value);
    if id.Err? {
      return calls, tip, bundle, Err(Wrapped("Failed to unmarshal bundle ID", id.error));
    }
    bundleId := id;
  }
}
