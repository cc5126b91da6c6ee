# jito-go-rpc client core, modelled in Dafny

This project models the client-side logic of the Jito JSON-RPC client for Go.
The client submits transaction bundles to a block engine and polls their
status. The model covers four parts:

- **Endpoints and calls.** Every bundle-family operation (`GetTipAccounts`,
  `GetRandomTipAccount`, `GetBundleStatuses`, `SendBundle`,
  `GetInflightBundleStatuses`) builds `/bundles` or `/bundles?uuid=<token>`.
  `SendTxn` builds `/transactions` with an optional query list
  (`bundleOnly=true`, then `uuid=<token>`), joined with `&`.
  Each operation hands one call — endpoint, method name, params — to
  `sendRequest`. In the model `sendRequest` is a transport function
  `Call -> Result<RawMessage>`. Raw answers are undecoded JSON text, and
  every `json.Unmarshal` is a decoder function passed in as a parameter.
- **The RPC envelope** (`Rpc`): the request `sendRequest` builds (URL, version
  `"2.0"`, id `1`, headers) and how it dispatches on the response. The HTTP
  round trip itself is a function parameter.
- **The two status pollers.** `checkBundleStatus` allows 60 attempts, 5 s apart.
  `checkTransactionStatus` allows 120 attempts, 1 s apart.
  The network is the sequence of observations, one per attempt. Each attempt
  adds two events to a trace: a sleep, then the query. Both pollers are loop
  methods. Each is proved equal to one generic reference function
  (`Polling.Poll`) applied with that poller's own classifier. `Polling` holds
  the lemmas about that function: the cap, the first terminal attempt, the
  "unknown" outcome and the shape of the trace.
- **The examples' client-side logic.** This covers the two-transaction bundle
  of `basic_bundle.go` (tip first); the compute-unit-price instruction (tag
  byte 3, then a little-endian u64); the instruction list; the bundle-only
  and `sendTransaction` submission paths; and the trimming of quotes from the
  signature.

`examples/basic_txn/main.go:159-205` is a verbatim copy of `checkBundleStatus`
in `basic_bundle.go:168-214`. Both are modelled by
`BundlePoller.CheckBundleStatus`.

Notes on what the code does:

- `GetTipAccounts` returns the raw answer and does not decode it. Decoding
  into a list of strings, and the empty-pool error, happen in
  `GetRandomTipAccount`.
- `SendBundle` passes its params through unchanged. The list-of-bundles
  wrapping is done by its callers (`basic_bundle.go:57-60`,
  `examples/basic_txn/main.go:126`), and so is decoding the bundle id.
- The attempt caps (60, 120) and delays (5 s, 1 s) are constants, and the
  two poll loops are separate copies. In the model they share only the
  reference function `Polling.Poll`.
- A transaction error in `checkTransactionStatus` is a `log.Fatalf`. It ends
  the process, and the model treats it as a terminal failure outcome.
- The transaction poller's log messages speak of "30 confirmations", but the
  threshold the code tests is 27. The model uses 27.

Two caveats about the endpoint round-trip lemmas (`BundlesEndpointParses`,
`TxnEndpointParses`):

- They require that the token contain no `&`, because the client puts the
  token into the query string without escaping it.
- They state how such an endpoint is read back. No code in the repository
  reads one back.

## Model

| member | source | states |
|---|---|---|
| `Rpc.BuildRequest` | rpc.go:11-36 | URL is base URL + endpoint, POST, envelope version "2.0", id 1, method and params as given; Content-Type is application/json; x-jito-auth is present, with the token, exactly when a token is set; no other header is set |
| `Rpc.SendRequest` | rpc.go:38-58 | the raw result comes back exactly when an envelope arrived with no error field; send and decode failures are wrapped; an RPC error surfaces its message |
| `Json.StringListRoundTrip` | bundles.go:61 | a marshalled `[]string` reads back as the same list |
| `Json.StringListsRoundTrip` | bundles.go:61 | a marshalled `[][]string` reads back as the same lists, in order |
| `QueryString.SplitJoin` | transactions.go:21 | splitting the `&`-joined query list gives the list back when no part contains `&` |
| `QueryString.ParseWithQuery` | transactions.go:20-22 | an endpoint built as path + `?` + joined list (the `?` only for a non-empty list) reads back as that path and list |
| `QueryString.QuestionMarkIffParams` | transactions.go:20-22 | the endpoint contains `?` exactly when the query list is non-empty |
| `Bundles.BundlesEndpoint` | bundles.go:29-32 | the bundle endpoint is the path "/bundles" with `uuid=<token>` as its only query parameter when a token is set, and none otherwise |
| `Bundles.BundlesEndpointParses` | bundles.go:29-32 | read back, the bundle endpoint gives "/bundles" and `[uuid=<token>]`, or no parameters when the token is empty |
| `Bundles.GetTipAccounts` | bundles.go:28-34 | endpoint "/bundles" or "/bundles?uuid=<token>", method "getTipAccounts", nil params; the transport's answer or error is returned as is |
| `Bundles.GetRandomTipAccount` | bundles.go:36-54 | a transport error is returned unchanged; a decode failure is wrapped "failed to unmarshal tip accounts"; an empty pool gives "no tip accounts available"; otherwise the account's address is a member of the decoded pool; an error never comes with an account |
| `Bundles.BundleStatusesCall` | bundles.go:57-62 | the status call goes to the bundle endpoint with method "getBundleStatuses", and its params read back as exactly one list, the ids |
| `Bundles.GetBundleStatuses` | bundles.go:56-73 | bundle endpoint, method "getBundleStatuses", params `[ids]` (one extra list level); the transport error propagates; a decode failure is wrapped "failed to unmarshal bundle statuses"; otherwise the decoded response |
| `Bundles.SendBundle` | bundles.go:75-81 | bundle endpoint, method "sendBundle", params unchanged, answer as is |
| `Bundles.GetInflightBundleStatuses` | bundles.go:83-89 | bundle endpoint, method "getInflightBundleStatuses", params unchanged, answer not decoded |
| `Transactions.TxnQuery` | transactions.go:11-18 | the query list has (bundleOnly ? 1 : 0) + (token set ? 1 : 0) entries; "bundleOnly=true" first when set, "uuid=<token>" last when set |
| `Transactions.SendTxn` | transactions.go:9-25 | the endpoint is "/transactions" plus `?` and the `&`-joined query list only when the list is non-empty (exactly "/transactions" when neither flag nor token); method "sendTransaction", params unchanged |
| `Transactions.TxnEndpointParses` | transactions.go:20-22 | read back, the transaction endpoint gives "/transactions" and the query list in order; it has a `?` exactly when bundleOnly is set or a token is set |
| `Transactions.TxnEndpointsWithToken` | transactions.go:13-22 | with a token set, the endpoints are "/transactions?uuid=<token>" and "/transactions?bundleOnly=true&uuid=<token>" |
| `Polling.PollMeaning` | basic_bundle.go:172-213 | a bounded poll issues at most the cap of queries; an outcome is the verdict of the last query and every earlier one continued; "unknown" exactly when all attempts were used and every one continued |
| `Polling.PollUnique` | basic_bundle.go:172-213 | those properties determine the poll's outcome and number of attempts uniquely |
| `Polling.PollFromIgnoresLater` | basic_bundle.go:172 | observations after the attempt cap do not affect the poll |
| `Polling.PollTraceShape` | basic_bundle.go:172-175 | the trace of n attempts alternates sleep and query, starting with a sleep: n sleeps, n queries, and every query comes right after its own sleep |
| `BundlePoller.Classify` | basic_bundle.go:176-210 | a query error or an empty status list continues; only the first record is read; "processed" and "confirmed" continue; "finalized" stops, reporting success with the transaction ids exactly when err.Ok is nil and failure with the error otherwise; any other status stops as unexpected |
| `BundlePoller.ClassifyReadsFirstOnly` | basic_bundle.go:186 | two answers with the same first record are classified alike |
| `BundlePoller.CheckBundleStatus` | basic_bundle.go:168-214 | the loop equals the reference poll over 60 attempts with Classify; 1 to 60 queries, each preceded by a 5 s sleep; no outcome (final status unknown) exactly when all 60 attempts continued; an outcome is the classification of the last attempt |
| `BundlePoller.LandsAfterFourPolls` | basic_bundle.go:181-206 | answers [no status, processed, confirmed, finalized with no error] end in success with the bundle's transaction ids after the 4th query |
| `BundlePoller.FailsAtFirstPoll` | basic_bundle.go:194-206 | finalized with an error at the first query is a failure after one query |
| `BundlePoller.UnknownAfterSixtyEmptyAnswers` | basic_bundle.go:181-184 | sixty answers without a status give "unknown" after exactly sixty queries |
| `TransactionPoller.Confirmations` | examples/basic_txn/main.go:228-231 | an absent confirmation count is read as 0 |
| `TransactionPoller.Classify` | examples/basic_txn/main.go:218-247 | a failed query or a nil status continues; an error stops with failure before the count is looked at; otherwise 27 or more confirmations stop with success and fewer continue |
| `TransactionPoller.CheckTransactionStatus` | examples/basic_txn/main.go:207-252 | an undecodable signature ends before any query; otherwise the loop equals the reference poll over 120 attempts, each preceded by a 1 s sleep; no outcome exactly when all 120 attempts continued |
| `TransactionPoller.ErrorBeforeThreshold` | examples/basic_txn/main.go:238-247 | a status with an error is a failure whatever its confirmation count |
| `TransactionPoller.NoCountNeverConfirms` | examples/basic_txn/main.go:228-248 | a status that never carries a confirmation count, and no error, uses up all 120 attempts without an outcome |
| `Instructions.DecodeEncode` | examples/basic_txn/main.go:150 | little-endian decoding of the n-byte encoding of v < 256^n gives v |
| `Instructions.EncodeDecode` | examples/basic_txn/main.go:150 | encoding the decoded number of a byte string gives the same bytes |
| `Instructions.LittleEndianAt` | examples/basic_txn/main.go:150 | byte k of the encoding is the low byte of v shifted right by 8k bits |
| `Instructions.PutUint64` | examples/basic_txn/main.go:150 | writes the 8 little-endian bytes of v at the offset and changes nothing else in the buffer |
| `Instructions.DecodeSetComputeUnitPrice` | examples/basic_txn/main.go:148-150 | a payload is read back exactly when it is 9 bytes starting with tag 3, and then it is tag 3 followed by the 8-byte little-endian encoding of the price read |
| `Instructions.CreateSetComputeUnitPriceInstruction` | examples/basic_txn/main.go:147-157 | data has length 9, data[0] == 3, data[1..9] is the little-endian encoding of the price and decodes back to it; compute-budget program, no accounts |
| `BasicBundle.BundleRequest` | basic_bundle.go:57-60 | the request reads back as exactly one bundle of two transactions, tip first and main second |
| `BasicBundle.SubmitBasicBundle` | basic_bundle.go:37-72 | getTipAccounts first; every failure is fatal; a tip account is chosen exactly when the lookup succeeds, decodes and gives a non-empty pool; the bundle is built exactly when, in addition, both transactions are created and encoded; when it is built, a second and last call sends exactly [tip, main], the tip paid to an account of the pool; a bundle id comes back exactly when sending and decoding succeed |
| `BasicTxn.BuildInstructions` | examples/basic_txn/main.go:72-89 | [compute price, transfer to receiver, tip transfer] when not bundle-only, [transfer to receiver, tip transfer] otherwise; the first instruction is the compute-budget program with no accounts and data tag 3 followed by the little-endian priority fee, and decodes to that fee |
| `BasicTxn.TrimQuotes` | examples/basic_txn/main.go:141 | the result is a slice of the input with only quote characters around it, and it neither starts nor ends with a quote |
| `BasicTxn.TrimQuotesIdempotent` | examples/basic_txn/main.go:141 | trimming twice is trimming once |
| `BasicTxn.TrimQuotesOfJsonString` | examples/basic_txn/main.go:141 | trimming a JSON string literal gives the signature inside |
| `BasicTxn.SubmitTransaction` | examples/basic_txn/main.go:118-144 | bundle-only mode: sendBundle with a single list around the one-transaction list, and the id is decoded; otherwise: sendTransaction to the /transactions endpoint without the bundle-only flag, params the one-transaction list, and the signature is the answer with its quotes trimmed; failures are fatal |

## Left out

- HTTP, JSON encoding and decoding, and printing are not modelled. The HTTP
  exchange is a parameter of `Rpc.SendRequest`. Every `json.Unmarshal` is a
  decoder parameter, so Go's decoding rules are not captured: for instance,
  JSON `null` decodes to an empty `[]string`.
- The `json.Marshal` and `http.NewRequest` failures in rpc.go:20-31 are not
  modelled. Params built from `Json.Value` always marshal.
- Go canonicalises header names (`X-Jito-Auth`); `Rpc.BuildRequest` keeps
  them as written, and HTTP compares header names case-insensitively.
- `Bundles.GetRandomTipAccount`: the index is arbitrary but in range. The
  uniform distribution of `rand.Intn` is left out: no distribution can be
  stated here.
- Sleeps, clocks and logging are left out. A sleep is a `Sleep(seconds)`
  event in the trace; log and print output is not recorded.
- Parameter marshalling does not distinguish a nil Go slice from an empty one.
- The Solana SDK is left out: transaction construction, signing,
  `MarshalBinary`, public-key parsing, and base58 encoding and decoding.
  Transactions are an opaque type parameter, and system transfers an opaque
  instruction. `TransactionPoller.CheckTransactionStatus` takes whether the
  signature decodes as an input. The `copy` into a fixed-size signature is
  not modelled.
- Wallet loading, the receiver-key parse, the blockhash fetch and
  `createMemoInstruction` belong to the SDK and I/O; they are not modelled.
- In both examples' `main`, the model ends at the bundle id or signature.
  Calling the poller afterwards is not composed into one member.
- The `Value[0]` index in checkTransactionStatus indexes a possibly empty
  list without checking. `TransactionPoller.Observation` excludes empty
  lists instead of modelling the panic.
- `main.go`, `client.go` (a constructor; `Rpc.Client` replaces it),
  `utils.go` (`PrettifyJSON`) and `types.go` are not modelled beyond the
  envelope datatypes in `Rpc`.
- Both pollers require at least as many observations as their attempt cap,
  since the network answers every query.
