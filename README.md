# MEV-Share matchmaker client — Dafny model

This project models the sequential core of a Rust client for the Flashbots
MEV-Share matchmaker. Searchers use the client in two ways. They submit
bundles to the relay, and every request is authenticated by a signed header.
They also consume the live stream of pending transactions and bundles.

The model has four modules, one file each:

- `Wrappers` (`wrappers.dfy`): `Option` and `Result`.
- `Types` (`types.dfy`, from `src/types.rs`):
  - the registry of supported networks (`SupportedNetworks`), built by two
    inserts into an empty map and queried by name or by chain id;
  - the stream event kinds and their names;
  - the decoded stream `Event` and its two projections, `PendingTransaction`
    (first transaction entry only) and `PendingBundle` (every entry);
  - the `mev_sendBundle` parameter record and its response.
  `PendingTransaction::new` and `PendingBundle::new` only build the struct
  from its fields, so they are the datatypes' own constructors.
- `SignerMiddleware` (`signer_middleware.dfy`, from `src/signer_middleware.rs`):
  - the message that is signed: "0x" plus the lower-case hex of the
    keccak256 digest of the body;
  - the `x-flashbots-signature` header, whose value is the address text,
    ":0x" and the signature text;
  - the request rewrite, which leaves the body untouched;
  - the layer, and the service whose `call` swaps its inner service for a
    clone and forwards only after signing succeeds.
  Keccak256, the signer, and the text forms of an address and a signature
  are library code. They are function-valued fields (`Crypto`, `Signer`)
  that the model never interprets. The `{:x}` hex format of the digest is
  modelled exactly (`LowerHex`) and proved invertible.
- `Client` (`client.dfy`, from `src/client.rs`):
  - construction for mainnet, for goerli or from a chain id, where an
    unsupported chain id fails before anything is built;
  - the dispatch loop of `on`;
  - the request that `send_bundle` issues.
  The stream is a finite `seq<Result<Event, StreamError>>`. The user
  callback is the trace of the values it is called with. `on_transaction` and
  `on_bundle` are `OnTransaction` and `OnBundle`. The loop fixes one of them
  once, through `Handler`, before the first item.

Modelling choices:

- The registry is a hash map, and its iteration order is unspecified. So
  `GetNetwork` takes the visiting order `order` as an argument, and the
  client constructors take it as a parameter. The lemmas prove that every
  iteration order gives the same answer, because the registry's chain ids
  are distinct.
- A panic (`panic!` or `unwrap` on a failure) is a `Failure` result. On
  that path nothing is forwarded or built.

Notes on what the code does:

- A signer failure panics at `unwrap` (`src/signer_middleware.rs:78-81`). It
  is not returned as an error value. The model's `Abort` result stands for
  that panic.
- An unsupported chain id panics (`src/client.rs:94-96`).
- The header uses the `Debug` text of the address. The model keeps that text
  opaque and does not claim it is checksummed.
- `call` does not poll for readiness itself. `poll_ready` delegates to the
  inner service, and the caller must poll before calling.

## Model

| member | source | states |
|---|---|---|
| `Types.SupportedNetworks.New` | src/types.rs:16-40 | builds exactly the registry table: keys "mainnet" and "goerli", with distinct chain ids |
| `Types.SupportedNetworks.Mainnet` | src/types.rs:43-45 | answers exactly when the key "mainnet" is stored, with the stored entry |
| `Types.SupportedNetworks.Goerli` | src/types.rs:48-50 | answers exactly when the key "goerli" is stored, with the stored entry |
| `Types.SupportedNetworks.IsSupported` | src/types.rs:53-57 | `values().any(..)`: holds exactly when some stored network has the chain id; see also `GetNetworkIffSupported` |
| `Types.SupportedNetworks.GetNetwork` | src/types.rs:60-65 | `values().find(..)` over the given iteration order: whatever it finds is a stored network with the chain id asked for; see also `GetNetworkFinds`, `GetNetworkIffSupported` |
| `Types.SupportedNetworks.GetNetworkFinds` | src/types.rs:60-65 | `find` answers exactly when some key visited in the order has the chain id, and then returns that key's entry |
| `Types.SupportedNetworks.GetNetworkIffSupported` | src/types.rs:53-65 | in any iteration order, `get_network` is `Some` exactly when `is_supported` holds, and then with a stored entry of that chain id |
| `Types.SupportedNetworks.GetNetworkOrderIndependent` | src/types.rs:60-65 | if chain ids are distinct, two iteration orders give the same answer |
| `Types.RegistryContents` | src/types.rs:17-35 | the table has exactly two entries, mainnet (chain 1) and goerli (chain 5), with their names and URLs and distinct chain ids |
| `Types.RegistryLookup` | src/types.rs:17-65 | in any iteration order: chain 1 gives the mainnet entry, chain 5 the goerli entry, and every other chain id is unsupported and gives `None` |
| `Types.RegistryNamedAccessors` | src/types.rs:43-65 | `mainnet()` and `goerli()` return the same entries as lookup by chain ids 1 and 5 |
| `Types.StreamingEventTypes.AsStr` | src/types.rs:93-98 | Bundle is named "bundle" and Transaction "transaction" |
| `Types.AsStrInjective` | src/types.rs:93-98 | the two names differ, so the name determines the kind |
| `Types.PendingTransaction.From` | src/types.rs:309-320 | keeps the hash, sets logs to `Some(logs)`; `to`, selector and calldata are all present or all absent, present exactly when the event has a transaction, and rebuild exactly the first entry; the reserved fields are absent |
| `Types.PendingBundle.From` | src/types.rs:369-377 | keeps the hash, the logs and every transaction entry in order (the event can be rebuilt from it); the reserved fields are absent |
| `Types.ProjectionsAgree` | src/types.rs:309-377 | the transaction projection is the bundle projection cut down to its first entry |
| `Types.BundleProjectionInjective` | src/types.rs:369-377 | the bundle projection loses nothing: different events give different bundles |
| `Types.SendBundleResult.FromResponse` | src/types.rs:210-214 | the result carries the response's bundle hash |
| `SignerMiddleware.LowerHex` | src/signer_middleware.rs:79 | two lower-case hex digits per byte and nothing else |
| `SignerMiddleware.HexRoundTrip` | src/signer_middleware.rs:79 | decoding the hex text gives back the bytes |
| `SignerMiddleware.SignedMessage` | src/signer_middleware.rs:79 | the signed message is "0x" and 64 lower-case hex digits (66 characters) that decode to keccak256 of the body |
| `SignerMiddleware.SignedMessageDeterminesDigest` | src/signer_middleware.rs:79 | two bodies give the same message exactly when their digests are equal |
| `SignerMiddleware.SplitJoined` | src/signer_middleware.rs:84-85 | "<a>:0x<s>" splits back into a and s when a holds no colon |
| `SignerMiddleware.SignatureHeaderValue` | src/signer_middleware.rs:84-85 | the value is the address text, ":0x" and the signature text, and both texts can be read back from it |
| `SignerMiddleware.SignRequest` | src/signer_middleware.rs:72-88 | a sign failure aborts with that error; success exactly when signing succeeds and the value is a legal header value; then the body, method, URI and version are unchanged, `x-flashbots-signature` holds exactly the one new value, and every other header is untouched |
| `SignerMiddleware.SignatureHeaderDeterministic` | src/signer_middleware.rs:78-85 | the header value depends only on the signer's address and its answer for the body's message |
| `SignerMiddleware.Transport.Clone` | src/signer_middleware.rs:67 | the clone is a new handle with the same behaviour and readiness |
| `SignerMiddleware.FlashbotsSignerLayer.Layer` | src/signer_middleware.rs:36-41 | the new service holds the layer's signer and the given inner service |
| `SignerMiddleware.FlashbotsSigner.PollReady` | src/signer_middleware.rs:62-64 | readiness is the inner service's answer, unchanged |
| `SignerMiddleware.FlashbotsSigner.Call` | src/signer_middleware.rs:66-92 | afterwards `inner` is a fresh clone of the old inner service; on signing failure nothing is forwarded and the abort is returned; on success the signed request goes to the previously held inner service, exactly once, and its answer is returned unchanged |
| `Client.MatchmakerClient.New` | src/client.rs:40-60 | the client keeps the network and a relay client for its API URL composed with the signing layer of the signer |
| `Client.MatchmakerClient.UseEthereumMainnet` | src/client.rs:65-73 | sets the network to the chain-1 entry of the registry, whatever the iteration order, and returns a client built for it |
| `Client.MatchmakerClient.UseEthereumGoerli` | src/client.rs:78-86 | sets the network to the chain-5 entry of the registry, whatever the iteration order, and returns a client built for it |
| `Client.MatchmakerClient.FromNetwork` | src/client.rs:92-101 | fails exactly when the chain id is unsupported, with the network unchanged and nothing built; otherwise the network is the registry entry with that chain id and a client is built for it |
| `Client.MatchmakerClient.On` | src/client.rs:131-178 | connects to the network's stream URL (a connection failure aborts); the callback trace is the dispatch of the whole stream with the projection fixed by the event kind |
| `Client.OnTransaction` | src/client.rs:107-113 | the callback gets a `Tx` carrying the event's hash and logs and exactly its first transaction entry |
| `Client.OnBundle` | src/client.rs:119-125 | the callback gets a `Bundle` from which the whole event can be rebuilt |
| `Client.Handler` | src/client.rs:152-165 | the handler chosen once per loop gives a `Bundle` exactly for the Bundle kind (rebuilding the event) and otherwise a `Tx` with the event's hash |
| `Client.OkEvents` | src/client.rs:168-177 | the `Ok` items of the stream, in order: no more of them than items, and an event is among them exactly when the stream holds it as an `Ok` item |
| `Client.DispatchedAppend` | src/client.rs:168-177 | dispatching a stream is dispatching its two parts one after the other |
| `Client.DispatchedProjectsOkEvents` | src/client.rs:168-177 | one callback per successfully decoded item, in stream order: the trace's length is the number of `Ok` items, and entry i is the projection of the i-th `Ok` event |
| `Client.DispatchedKinds` | src/client.rs:107-125 | with Bundle every callback argument is `Bundle(PendingBundle::from(e))`; with Transaction every one is `Tx(PendingTransaction::from(e))` |
| `Client.ErrorItemSkipped` | src/client.rs:173-175 | an `Err` item is skipped without ending the loop or changing what comes after it |
| `Client.EventAfterErrorDelivered` | src/client.rs:168-177 | an event right after a malformed item is still dispatched, first |
| `Client.SendBundleRequest` | src/client.rs:183-187 | the call is `mev_sendBundle` with the bundle as its single positional parameter |

## Left out

- Keccak256, ECDSA `sign_message`, the `Debug` text of an address and the `Display` text of a signature are library code. They are uninterpreted function values.
- Header-value legality (`HeaderValue::from_str`) follows the http crate's rule as that crate states it: tab, visible ASCII, or any byte above ASCII. The http crate is not part of this model.
- HTTP and JSON-RPC client building (`HttpClientBuilder::build(api_url).unwrap()`) and the transport are I/O. A built client is a record of its target URL and its signing layer.
- The SSE event client is I/O. `On` takes it as a function from a URL to a connection outcome.
- The JSON wire form of `Bundle`, `BundleTx`, hints and refunds comes from serde derives, which are library code. `Bundle` has no `Serialize` derive at all, so the code defines no wire form for it. Decoding of stream messages and response decoding are left out as well.
- The hex-quantity encodings of `U64`/`U256` belong to the Ethereum library.
- `SignerMiddleware.FlashbotsSigner.Call`: the returned future's work (buffer, sign, forward) happens within the call. A future that is dropped before it is polled, which would never forward, is not modelled. Neither is the suspension at signing.
- `SignerMiddleware.FlashbotsSigner.Call`: buffering the body (`hyper::body::to_bytes(..).unwrap()`) is not modelled. The request arrives with its body as bytes, so a failing body stream is not represented.
- The inner service is generic in the source. Here it is one class, `Transport`, with a response function, a readiness answer and a log of the requests it received.
- `Client.MatchmakerClient.On`: the stream is finite. A stream that never ends, and so a loop that never returns, is not represented.
- A callback that panics would end the loop. That case is not modelled, and the callback always returns.
- `Arc` and `Mutex` sharing of the signer and the callback is concurrency. The callback is a sequential trace.
- The global tracing setup inside `on` (`src/client.rs:135-138`) is a process-wide side effect and is left out. Its `init()` panics once a global subscriber is already set, so a second `on` in the same process would fail there.
- Log output (`info!`, `error!`) is left out, including the "Bundle" message printed for the Transaction kind (`src/client.rs:160`).
- `MatchmakerClient::new` takes `self` but ignores it. It is modelled as a constructor from the signer and the network. The `event_client` field is the default, stateless client, and it is replaced by the `events` argument of `On`.
- `tests/types.rs` only holds deserialisation fixture structs, with no logic.
