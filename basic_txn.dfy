/** The client-side logic of examples/basic_txn/main.go: the instruction
    list of the single transaction, its submission either as a one-transaction
    bundle or through sendTransaction, and the reading of the signature. */
module BasicTxn {
  import opened Wrappers
  import Json
  import opened Rpc
  import opened Bundles
  import Transactions
  import QueryString
  import opened Instructions

  const JitoTipLamports: u64 := 1000
  const TransferLamports: u64 := 1000
  const PriorityFee: u64 := 1000

  /** The instruction list: the compute-unit price first unless in
      bundle-only mode, then the transfer to the receiver, then the tip. */
  method BuildInstructions(bundleOnly: bool, payer: string, receiver: string, tipAccount: string)
    returns (instructions: seq<Instruction>)
    ensures var transfer := SystemTransfer(TransferLamports, payer, receiver);
      var tip := SystemTransfer(JitoTipLamports, payer, tipAccount);
      && (bundleOnly ==> instructions == [transfer, tip])
      && (!bundleOnly ==> |instructions| == 3 && instructions[1..] == [transfer, tip])
    ensures !bundleOnly ==>
      && instructions[0] ==
           Instruction(ComputeBudgetProgram, [], [SetComputeUnitPriceTag] + LittleEndian(PriorityFee as nat, 8))
      && DecodeSetComputeUnitPrice(instructions[0].data) == Some(PriorityFee)
  {
    instructions := [];
    if !bundleOnly {
      var computePrice := CreateSetComputeUnitPriceInstruction(PriorityFee);
      instructions := instructions + [computePrice];
    }
    instructions := instructions + [
      SystemTransfer(TransferLamports, payer, receiver),
      SystemTransfer(JitoTipLamports, payer, tipAccount)
    ];
  }

  /** strings.TrimLeft with the cutset "\"": drops every leading quote. */
  function TrimLeadingQuotes(s: string): (r: string)
    ensures |r| <= |s| && r == s[|s| - |r|..]
    ensures forall k :: 0 <= k < |s| - |r| ==> s[k] == '"'
    ensures r == [] || r[0] != '"'
  {
    if s != [] && s[0] == '"' then TrimLeadingQuotes(s[1..]) else s
  }

  /** strings.TrimRight with the cutset "\"": drops every trailing quote. */
  function TrimTrailingQuotes(s: string): (r: string)
    ensures |r| <= |s| && r == s[..|r|]
    ensures forall k :: |r| <= k < |s| ==> s[k] == '"'
    ensures r == [] || r[|r| - 1] != '"'
  {
    if s != [] && s[|s| - 1] == '"' then TrimTrailingQuotes(s[..|s| - 1]) else s
  }

  /** strings.Trim(s, "\""): what remains of s once all leading and all
      trailing quotes are removed. The result is a slice of s with only
      quotes around it, and neither begins nor ends with a quote. */
  function TrimQuotes(s: string): (r: string)
    ensures r == [] || (r[0] != '"' && r[|r| - 1] != '"')
    ensures var i := |s| - |TrimLeadingQuotes(s)|;
      && i + |r| <= |s| && r == s[i..i + |r|]
      && forall k :: 0 <= k < |s| && !(i <= k < i + |r|) ==> s[k] == '"'
  {
    TrimTrailingQuotes(TrimLeadingQuotes(s))
  }

  /** Trimming twice is trimming once. */
  lemma TrimQuotesIdempotent(s: string)
    ensures TrimQuotes(TrimQuotes(s)) == TrimQuotes(s)
  {
    var r := TrimQuotes(s);
    assert TrimLeadingQuotes(r) == r;
    assert TrimTrailingQuotes(r) == r;
  }

  lemma TrimLeadingPastQuote(x: string)
    requires x == [] || x[0] != '"'
    ensures TrimLeadingQuotes("\"" + x) == x
  {
    assert ("\"" + x)[1..] == x;
  }

  lemma TrimTrailingPastQuote(x: string)
    requires x == [] || x[|x| - 1] != '"'
    ensures TrimTrailingQuotes(x + "\"") == x
  {
    assert (x + "\"")[..|x|] == x;
  }

  /** The result text of sendTransaction is a JSON string: trimming its
      quotes gives the signature inside. */
  lemma TrimQuotesOfJsonString(signature: string)
    requires signature == [] || (signature[0] != '"' && signature[|signature| - 1] != '"')
    ensures TrimQuotes("\"" + signature + "\"") == signature
  {
    var withClose := signature + "\"";
    var quoted := "\"" + withClose;
    assert "\"" + signature + "\"" == quoted;
    if signature == [] {
      assert quoted == ['"', '"'];
      assert TrimLeadingQuotes(quoted) == TrimLeadingQuotes(['"']);
      assert TrimLeadingQuotes(['"']) == TrimLeadingQuotes([]);
    } else {
      assert withClose[0] == signature[0];
      TrimLeadingPastQuote(withClose);
      TrimTrailingPastQuote(signature);
      assert TrimQuotes(quoted) == TrimTrailingQuotes(withClose);
    }
  }

  /** What main goes on to do once the transaction is sent. */
  datatype Tracking =
    | TrackBundle(bundleId: string)      // checkBundleStatus
    | TrackSignature(signature: string)  // checkTransactionStatus

  /** The sending step of main for one encoded transaction. In bundle-only
      mode the one-transaction list goes out through sendBundle, wrapped in
      exactly one more list, and the answer is decoded as the bundle id;
      otherwise it goes out through sendTransaction without the bundle-only
      flag and the signature is the answer with its quotes trimmed. Every
      failure is fatal and is returned as the error. */
  method SubmitTransaction(c: Client, bundleOnly: bool, encodedTx: string, net: Transport,
                           decodeId: RawMessage -> Result<string>)
    returns (call: Call, next: Result<Tracking>)
    ensures bundleOnly ==>
      && call == SendBundle(c, Json.StringMatrix([[encodedTx]]), net).call
      && Json.StringLists(call.params) == Some([[encodedTx]])
      && (next.Ok? <==> net(call).Ok? && decodeId(net(call).value).Ok?)
      && (next.Ok? ==> next.value == TrackBundle(decodeId(net(call).value).value))
    ensures !bundleOnly ==>
      && call.endpoint == QueryString.WithQuery("/transactions", Transactions.TxnQuery(false, c.uuid))
      && call.rpcMethod == "sendTransaction"
      && Json.StringList(call.params) == Some([encodedTx])
      && (next.Ok? <==> net(call).Ok?)
      && (next.Ok? ==> next.value == TrackSignature(TrimQuotes(net(call).value)))
    ensures net(call).Err? ==> next.Err?
  {
    var txnRequest := [encodedTx];
    if bundleOnly {
      var bundleRequest := Json.StringMatrix([txnRequest]);
      Json.StringListsRoundTrip([txnRequest]);
      var sent := SendBundle(c, bundleRequest, net);
      call := sent.call;
      if sent.result.Err? {
        return call, Err(Wrapped("Failed to send bundle", sent.result.error));
      }
      var id := decodeId(sent.result.value);
      if id.Err? {
        return call, Err(Wrapped("Failed to unmarshal bundle ID", id.error));
      }
      next := Ok(TrackBundle(id.value));
    } else {
      Json.StringListRoundTrip(txnRequest);
      var result;
      call, result := Transactions.SendTxn(c, Json.StringArray(txnRequest), false, net);
      if result.Err? {
        return call, Err(Wrapped("Failed to send transaction", result.error));
      }
      next := Ok(TrackSignature(TrimQuotes(result.value)));
    }
  }
}
