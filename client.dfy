/**
 * The matchmaker client: construction for a supported network, the
 * event-dispatch loop over the matchmaker stream, and the shape of the
 * `mev_sendBundle` request.
 *
 * The event stream is a finite sequence of decoded items (an event or a
 * decoding error); the user callback is the trace of the arguments it is
 * called with, in call order.
 */
module Client {
  import opened Wrappers
  import opened Types
  import opened SignerMiddleware

  /** The relay client as built: the relay URL it targets and the signing layer it is composed with. */
  datatype SignerClient = SignerClient(apiUrl: string, middleware: FlashbotsSignerLayer)

  /** A chain id that is not in the registry (a panic in the source). */
  datatype ConfigError = UnsupportedChain(chainId: U64)

  /** A stream item that did not decode as an event. */
  datatype StreamError = StreamError(reason: string)

  /** The stream connection could not be opened (an `unwrap` panic in the source). */
  datatype ConnectError = ConnectError(reason: string)

  type StreamItem = Result<Event, StreamError>

  // ---------------------------------------------------------------------
  // The projection chosen for a dispatch loop
  // ---------------------------------------------------------------------

  /** The callback argument for one event when listening for transactions. */
  function OnTransaction(event: Event): (arg: PendingTxOrBundle)
    ensures arg.Tx? && arg.tx.hash == event.hash && arg.tx.logs == Some(event.logs)
    ensures arg.tx.FirstTransaction() == if event.transactions == [] then None else Some(event.transactions[0])
  {
    Tx(PendingTransaction.From(event))
  }

  /** The callback argument for one event when listening for bundles. */
  function OnBundle(event: Event): (arg: PendingTxOrBundle)
    ensures arg.Bundle? && arg.bundle.ToEvent() == Some(event)
  {
    PendingTxOrBundle.Bundle(PendingBundle.From(event))
  }

  /** The handler fixed once per loop by the kind listened for. */
  function Handler(kind: StreamingEventTypes): (handler: Event -> PendingTxOrBundle)
    ensures forall e :: handler(e).Bundle? <==> kind.Bundle?
    ensures forall e :: handler(e).Bundle? ==> handler(e).bundle.ToEvent() == Some(e)
    ensures forall e :: handler(e).Tx? ==> handler(e).tx.hash == e.hash
  {
    match kind
    case Bundle => OnBundle
    case Transaction => OnTransaction
  }

  /** The events of the stream, in order, with the decoding errors dropped. */
  function OkEvents(items: seq<StreamItem>): (events: seq<Event>)
    ensures |events| <= |items|
    ensures forall e :: e in events <==> Success(e) in items
    decreases |items|
  {
    if items == [] then []
    else (if items[0].Success? then [items[0].value] else []) + OkEvents(items[1..])
  }

  /** The callback trace of one dispatch loop over `items`. */
  function Dispatched(kind: StreamingEventTypes, items: seq<StreamItem>): seq<PendingTxOrBundle>
    decreases |items|
  {
    if items == [] then []
    else (if items[0].Success? then [Handler(kind)(items[0].value)] else []) + Dispatched(kind, items[1..])
  }

  /** Dispatching a stream is dispatching its two halves one after the other. */
  lemma {:induction false} DispatchedAppend(kind: StreamingEventTypes, a: seq<StreamItem>, b: seq<StreamItem>)
    ensures Dispatched(kind, a + b) == Dispatched(kind, a) + Dispatched(kind, b)
    decreases |a|
  {
    if a == [] {
      assert a + b == b;
    } else {
      var head := if a[0].Success? then [Handler(kind)(a[0].value)] else [];
      assert (a + b)[0] == a[0];
      assert (a + b)[1..] == a[1..] + b;
      DispatchedAppend(kind, a[1..], b);
      calc {
        Dispatched(kind, a + b);
        head + Dispatched(kind, a[1..] + b);
        head + (Dispatched(kind, a[1..]) + Dispatched(kind, b));
        (head + Dispatched(kind, a[1..])) + Dispatched(kind, b);
      }
    }
  }

  /**
   * One callback per event that decoded, in stream order: the trace is the
   * chosen projection of the stream's events, entry by entry.
   */
  lemma {:induction false} DispatchedProjectsOkEvents(kind: StreamingEventTypes, items: seq<StreamItem>)
    ensures |Dispatched(kind, items)| == |OkEvents(items)|
    ensures forall i :: 0 <= i < |OkEvents(items)| ==> Dispatched(kind, items)[i] == Handler(kind)(OkEvents(items)[i])
    decreases |items|
  {
    if items != [] {
      DispatchedProjectsOkEvents(kind, items[1..]);
      var trace, events := Dispatched(kind, items), OkEvents(items);
      var restTrace, restEvents := Dispatched(kind, items[1..]), OkEvents(items[1..]);
      if items[0].Success? {
        assert trace == [Handler(kind)(items[0].value)] + restTrace;
        assert events == [items[0].value] + restEvents;
        forall i | 0 < i < |events|
          ensures trace[i] == Handler(kind)(events[i])
        {
          assert trace[i] == restTrace[i - 1];
          assert events[i] == restEvents[i - 1];
        }
      } else {
        assert trace == restTrace;
        assert events == restEvents;
      }
    }
  }

  /**
   * The projection is the same for the whole loop: listening for bundles
   * yields only bundle projections, listening for transactions only
   * transaction projections.
   */
  lemma DispatchedKinds(kind: StreamingEventTypes, items: seq<StreamItem>)
    ensures |Dispatched(kind, items)| == |OkEvents(items)|
    ensures kind.Bundle? ==> forall i :: 0 <= i < |OkEvents(items)| ==>
      Dispatched(kind, items)[i] == PendingTxOrBundle.Bundle(PendingBundle.From(OkEvents(items)[i]))
    ensures kind.Transaction? ==> forall i :: 0 <= i < |OkEvents(items)| ==>
      Dispatched(kind, items)[i] == Tx(PendingTransaction.From(OkEvents(items)[i]))
  {
    DispatchedProjectsOkEvents(kind, items);
  }

  /** A decoding error is skipped: it neither ends the loop nor changes what follows it. */
  lemma ErrorItemSkipped(kind: StreamingEventTypes, before: seq<StreamItem>, err: StreamError, after: seq<StreamItem>)
    ensures Dispatched(kind, before + [Failure(err)] + after) == Dispatched(kind, before) + Dispatched(kind, after)
  {
    DispatchedAppend(kind, before + [Failure(err)], after);
    DispatchedAppend(kind, before, [Failure(err)]);
  }

  /** An event right after a malformed item is still delivered, first. */
  lemma EventAfterErrorDelivered(kind: StreamingEventTypes, err: StreamError, event: Event, rest: seq<StreamItem>)
    ensures Dispatched(kind, [Failure(err), Success(event)] + rest) == [Handler(kind)(event)] + Dispatched(kind, rest)
  {
    ErrorItemSkipped(kind, [], err, [Success(event)] + rest);
    assert [] + [Failure(err)] + ([Success(event)] + rest) == [Failure(err), Success(event)] + rest;
  }

  // ---------------------------------------------------------------------
  // Bundle submission
  // ---------------------------------------------------------------------

  /** A JSON-RPC call: method name and positional parameters. */
  datatype RpcRequest = RpcRequest(methodName: string, params: seq<Bundle>)

  /** The call `send_bundle` issues: `mev_sendBundle` with the bundle as the one parameter. */
  function SendBundleRequest(bundle: Bundle): (req: RpcRequest)
    ensures req.methodName == "mev_sendBundle"
    ensures |req.params| == 1 && req.params[0] == bundle
  {
    RpcRequest("mev_sendBundle", [bundle])
  }

  // ---------------------------------------------------------------------
  // The client
  // ---------------------------------------------------------------------

  class MatchmakerClient {
    var signerClient: SignerClient
    var network: MatchMakerNetwork

    /** Composes the signing layer for `authSigner` into a relay client for the network's API URL. */
    constructor New(authSigner: Signer, network: MatchMakerNetwork)
      ensures this.network == network
      ensures signerClient == SignerClient(network.apiUrl, FlashbotsSignerLayer(authSigner))
    {
      this.network := network;
      signerClient := SignerClient(network.apiUrl, FlashbotsSignerLayer(authSigner));
    }

    /** Selects the mainnet entry of the registry and builds a client for it. */
    method UseEthereumMainnet(authSigner: Signer, order: seq<string>) returns (c: MatchmakerClient)
      requires Registry().IsIterationOrder(order)
      modifies this
      ensures network == MainnetNetwork && signerClient == old(signerClient)
      ensures fresh(c) && c.network == MainnetNetwork
      ensures c.signerClient == SignerClient(MainnetNetwork.apiUrl, FlashbotsSignerLayer(authSigner))
    {
      var supported := SupportedNetworks.New();
      RegistryLookup(MainnetChainId, order);
      var found := supported.GetNetwork(MainnetChainId, order);
      network := found.value;
      c := new MatchmakerClient.New(authSigner, network);
    }

    /** Selects the goerli entry of the registry and builds a client for it. */
    method UseEthereumGoerli(authSigner: Signer, order: seq<string>) returns (c: MatchmakerClient)
      requires Registry().IsIterationOrder(order)
      modifies this
      ensures network == GoerliNetwork && signerClient == old(signerClient)
      ensures fresh(c) && c.network == GoerliNetwork
      ensures c.signerClient == SignerClient(GoerliNetwork.apiUrl, FlashbotsSignerLayer(authSigner))
    {
      var supported := SupportedNetworks.New();
      RegistryLookup(GoerliChainId, order);
      var found := supported.GetNetwork(GoerliChainId, order);
      network := found.value;
      c := new MatchmakerClient.New(authSigner, network);
    }

    /**
     * Builds a client for the network of `chainId`. An unsupported chain id
     * fails before anything is built or changed.
     */
    method FromNetwork(authSigner: Signer, chainId: U64, order: seq<string>) returns (r: Result<MatchmakerClient, ConfigError>)
      requires Registry().IsIterationOrder(order)
      modifies this
      ensures r.Failure? <==> !Registry().IsSupported(chainId)
      ensures r.Failure? ==> r.error == UnsupportedChain(chainId) && network == old(network)
      ensures signerClient == old(signerClient)
      ensures r.Success? ==>
        && KnownNetwork(chainId) == Some(network)
        && network.chainId == chainId
        && fresh(r.value)
        && r.value.network == network
        && r.value.signerClient == SignerClient(network.apiUrl, FlashbotsSignerLayer(authSigner))
    {
      var supported := SupportedNetworks.New();
      if !supported.IsSupported(chainId) {
        return Failure(UnsupportedChain(chainId));
      }
      RegistryLookup(chainId, order);
      var found := supported.GetNetwork(chainId, order);
      network := found.value;
      var c := new MatchmakerClient.New(authSigner, network);
      r := Success(c);
    }

    /**
     * Opens the stream at the network's stream URL and runs the dispatch
     * loop until the stream ends, returning the trace of callback arguments.
     * `events` stands for the event client: what connecting to a URL yields.
     */
    method On(eventType: StreamingEventTypes, events: string -> Result<seq<StreamItem>, ConnectError>)
      returns (r: Result<seq<PendingTxOrBundle>, ConnectError>)
      ensures events(network.streamUrl).Failure? ==> r == Failure(events(network.streamUrl).error)
      ensures events(network.streamUrl).Success? ==> r == Success(Dispatched(eventType, events(network.streamUrl).value))
    {
      var connection := events(network.streamUrl);
      if connection.Failure? {
        return Failure(connection.error);
      }
      var stream := connection.value;
      var handler := Handler(eventType);
      var trace: seq<PendingTxOrBundle> := [];
      var i := 0;
      while i < |stream|
        invariant 0 <= i <= |stream|
        invariant trace == Dispatched(eventType, stream[..i])
      {
        DispatchedAppend(eventType, stream[..i], [stream[i]]);
        assert stream[..i + 1] == stream[..i] + [stream[i]];
        match stream[i] {
          case Success(e) =>
            trace := trace + [handler(e)];
          case Failure(_) =>
        }
        i := i + 1;
      }
      assert stream[..|stream|] == stream;
      r := Success(trace);
    }
  }
}
