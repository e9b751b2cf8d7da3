/**
 * The value types of the matchmaker client: the registry of supported
 * networks, the stream event kinds, the two projections of a stream event,
 * the bundle submission record and its response.
 */
module Types {
  import opened Wrappers

  // ---------------------------------------------------------------------
  // Primitive types of the Ethereum library, at their stated widths
  // ---------------------------------------------------------------------

  type Byte = x: int | 0 <= x < 256
  type Bytes = seq<Byte>
  type U32 = x: int | 0 <= x < 0x1_0000_0000
  type U64 = x: int | 0 <= x < 0x1_0000_0000_0000_0000
  type U256 = x: int | 0 <= x < 0x1_0000_0000_0000_0000_0000_0000_0000_0000_0000_0000_0000_0000_0000_0000_0000_0000

  /** A 32-byte hash (`H256`, `TxHash`). */
  type TxHash = b: Bytes | |b| == 32 witness seq(32, _ => 0)
  /** A 20-byte account address. */
  type Address = b: Bytes | |b| == 20 witness seq(20, _ => 0)
  /** The 4-byte function selector of a call. */
  type FunctionSelector = b: Bytes | |b| == 4 witness [0, 0, 0, 0]

  /** The numeric chain ids of `Chain::Mainnet` and `Chain::Goerli`. */
  const MainnetChainId: U64 := 1
  const GoerliChainId: U64 := 5

  // ---------------------------------------------------------------------
  // Network registry
  // ---------------------------------------------------------------------

  /** Configuration used to connect to the matchmaker of one chain. */
  datatype MatchMakerNetwork = MatchMakerNetwork(
    chainId: U64,
    name: string,
    streamUrl: string,
    apiUrl: string)

  const MainnetNetwork := MatchMakerNetwork(
    MainnetChainId, "mainnet", "https://mev-share.flashbots.net", "https://relay.flashbots.net")

  const GoerliNetwork := MatchMakerNetwork(
    GoerliChainId, "goerli", "https://mev-share-goerli.flashbots.net", "https://relay-goerli.flashbots.net")

  /** The network a chain id stands for in the fixed table, if any. */
  function KnownNetwork(chainId: U64): Option<MatchMakerNetwork> {
    if chainId == MainnetChainId then Some(MainnetNetwork)
    else if chainId == GoerliChainId then Some(GoerliNetwork)
    else None
  }

  /** The table that `SupportedNetworks::new` builds. */
  function Registry(): SupportedNetworks {
    SupportedNetworks(map["mainnet" := MainnetNetwork, "goerli" := GoerliNetwork])
  }

  /**
   * The supported networks, keyed by lower-case name. The source keeps them
   * in a hash map whose iteration order is not specified; the lookups by
   * chain id therefore take that order as an explicit argument `order`.
   */
  datatype SupportedNetworks = SupportedNetworks(supportedNetworks: map<string, MatchMakerNetwork>)
  {
    /** Builds the table by two successive inserts into an empty map. */
    static method New() returns (s: SupportedNetworks)
      ensures s == Registry()
      ensures s.supportedNetworks.Keys == {"mainnet", "goerli"}
      ensures s.HasDistinctChainIds()
    {
      var networks: map<string, MatchMakerNetwork> := map[];
      networks := networks["mainnet" := MainnetNetwork];
      networks := networks["goerli" := GoerliNetwork];
      s := SupportedNetworks(networks);
    }

    /** Lookup by the key "mainnet". */
    function Mainnet(): (r: Option<MatchMakerNetwork>)
      ensures r.Some? <==> "mainnet" in supportedNetworks
      ensures r.Some? ==> r.value == supportedNetworks["mainnet"]
    {
      if "mainnet" in supportedNetworks then Some(supportedNetworks["mainnet"]) else None
    }

    /** Lookup by the key "goerli". */
    function Goerli(): (r: Option<MatchMakerNetwork>)
      ensures r.Some? <==> "goerli" in supportedNetworks
      ensures r.Some? ==> r.value == supportedNetworks["goerli"]
    {
      if "goerli" in supportedNetworks then Some(supportedNetworks["goerli"]) else None
    }

    /** Some stored network has this chain id (`values().any(..)`). */
    predicate IsSupported(chainId: U64)
      ensures IsSupported(chainId) <==> exists n :: n in supportedNetworks.Values && n.chainId == chainId
    {
      exists name :: name in supportedNetworks && supportedNetworks[name].chainId == chainId
    }

    /** `order` is an iteration order of the map: each key exactly once, nothing else. */
    ghost predicate IsIterationOrder(order: seq<string>) {
      && (forall name :: name in supportedNetworks <==> name in order)
      && (forall i, j :: 0 <= i < j < |order| ==> order[i] != order[j])
    }

    /** No two stored networks share a chain id. */
    ghost predicate HasDistinctChainIds() {
      forall a, b ::
        (a in supportedNetworks && b in supportedNetworks &&
         supportedNetworks[a].chainId == supportedNetworks[b].chainId) ==> a == b
    }

    /** The first network, visiting the keys in `order`, with this chain id (`values().find(..)`). */
    function GetNetwork(chainId: U64, order: seq<string>): (r: Option<MatchMakerNetwork>)
      ensures r.Some? ==> r.value in supportedNetworks.Values && r.value.chainId == chainId
      decreases |order|
    {
      if order == [] then None
      else if order[0] in supportedNetworks && supportedNetworks[order[0]].chainId == chainId
      then Some(supportedNetworks[order[0]])
      else GetNetwork(chainId, order[1..])
    }

    /** Whatever `GetNetwork` finds comes from a key visited in `order` and has the chain id asked for. */
    lemma {:induction false} GetNetworkFinds(chainId: U64, order: seq<string>)
      ensures GetNetwork(chainId, order).Some? <==>
        exists name :: name in order && name in supportedNetworks && supportedNetworks[name].chainId == chainId
      ensures GetNetwork(chainId, order).Some? ==>
        exists name :: name in order && name in supportedNetworks &&
          supportedNetworks[name] == GetNetwork(chainId, order).value &&
          GetNetwork(chainId, order).value.chainId == chainId
      decreases |order|
    {
      if order != [] {
        GetNetworkFinds(chainId, order[1..]);
        forall name | name in order
          ensures name == order[0] || name in order[1..]
        {
        }
      }
    }

    /**
     * In any iteration order, `GetNetwork` answers exactly when `IsSupported`
     * holds, and then with a stored network of that chain id.
     */
    lemma GetNetworkIffSupported(chainId: U64, order: seq<string>)
      requires IsIterationOrder(order)
      ensures GetNetwork(chainId, order).Some? <==> IsSupported(chainId)
      ensures GetNetwork(chainId, order).Some? ==>
        GetNetwork(chainId, order).value.chainId == chainId &&
        GetNetwork(chainId, order).value in supportedNetworks.Values
    {
      GetNetworkFinds(chainId, order);
    }

    /** With distinct chain ids, the answer does not depend on the iteration order. */
    lemma GetNetworkOrderIndependent(chainId: U64, order1: seq<string>, order2: seq<string>)
      requires HasDistinctChainIds()
      requires IsIterationOrder(order1) && IsIterationOrder(order2)
      ensures GetNetwork(chainId, order1) == GetNetwork(chainId, order2)
    {
      GetNetworkFinds(chainId, order1);
      GetNetworkFinds(chainId, order2);
    }
  }

  /** The registry holds exactly the two networks, under their own names, with distinct chain ids. */
  lemma RegistryContents()
    ensures Registry().supportedNetworks.Keys == {"mainnet", "goerli"}
    ensures |Registry().supportedNetworks| == 2
    ensures Registry().supportedNetworks["mainnet"] == MainnetNetwork
    ensures Registry().supportedNetworks["goerli"] == GoerliNetwork
    ensures MainnetNetwork.chainId != GoerliNetwork.chainId
    ensures Registry().HasDistinctChainIds()
  {
    var keys := Registry().supportedNetworks.Keys;
    assert keys == {"mainnet"} + {"goerli"};
    assert "mainnet" != "goerli";
  }

  /**
   * Lookup by chain id in the registry, whatever the iteration order: mainnet
   * and goerli give their entries, every other chain id is unsupported.
   */
  lemma RegistryLookup(chainId: U64, order: seq<string>)
    requires Registry().IsIterationOrder(order)
    ensures Registry().GetNetwork(chainId, order) == KnownNetwork(chainId)
    ensures Registry().IsSupported(chainId) <==> chainId == MainnetChainId || chainId == GoerliChainId
  {
    var reg := Registry();
    RegistryContents();
    reg.GetNetworkIffSupported(chainId, order);
    reg.GetNetworkFinds(chainId, order);
    if chainId == MainnetChainId {
      assert reg.supportedNetworks["mainnet"].chainId == chainId;
    } else if chainId == GoerliChainId {
      assert reg.supportedNetworks["goerli"].chainId == chainId;
    } else {
      assert !reg.IsSupported(chainId);
    }
  }

  /** The keyed accessors agree with the lookup by chain id. */
  lemma RegistryNamedAccessors(order: seq<string>)
    requires Registry().IsIterationOrder(order)
    ensures Registry().Mainnet() == Some(MainnetNetwork) == Registry().GetNetwork(MainnetChainId, order)
    ensures Registry().Goerli() == Some(GoerliNetwork) == Registry().GetNetwork(GoerliChainId, order)
  {
    RegistryLookup(MainnetChainId, order);
    RegistryLookup(GoerliChainId, order);
  }

  // ---------------------------------------------------------------------
  // Stream event kinds
  // ---------------------------------------------------------------------

  /** Which kind of stream event a caller listens for. */
  datatype StreamingEventTypes = Bundle | Transaction
  {
    function AsStr(): (s: string)
      ensures Bundle? ==> s == "bundle"
      ensures Transaction? ==> s == "transaction"
    {
      match this
      case Bundle => "bundle"
      case Transaction => "transaction"
    }
  }

  /** The two kinds have different names. */
  lemma AsStrInjective(a: StreamingEventTypes, b: StreamingEventTypes)
    ensures a.AsStr() == b.AsStr() <==> a == b
  {
    assert "bundle" != "transaction";
  }

  // ---------------------------------------------------------------------
  // Stream events (as decoded by the SSE library) and their projections
  // ---------------------------------------------------------------------

  datatype EventTransactionLog = EventTransactionLog(address: Address, topics: seq<TxHash>)

  datatype EventTransaction = EventTransaction(
    to: Address,
    functionSelector: FunctionSelector,
    calldata: Bytes)

  /** One decoded stream event: its hash, its logs and its transaction entries. */
  datatype Event = Event(
    hash: TxHash,
    logs: seq<EventTransactionLog>,
    transactions: seq<EventTransaction>)

  /**
   * A pending transaction from the stream. `PendingTransaction::new` is the
   * field-wise constructor of this datatype.
   */
  datatype PendingTransaction = PendingTransaction(
    hash: TxHash,
    logs: Option<seq<EventTransactionLog>>,
    to: Option<Address>,
    functionSelector: Option<FunctionSelector>,
    calldata: Option<Bytes>,
    mevGasPrice: Option<U256>,
    gasUsed: Option<U256>)
  {
    /** The transaction entry the three optional fields describe, when all three are present. */
    function FirstTransaction(): Option<EventTransaction> {
      if to.Some? && functionSelector.Some? && calldata.Some?
      then Some(EventTransaction(to.value, functionSelector.value, calldata.value))
      else None
    }

    /** `From<&Event>`: keeps the hash, the logs and only the first transaction entry. */
    static function From(event: Event): (tx: PendingTransaction)
      ensures tx.hash == event.hash && tx.logs == Some(event.logs)
      ensures tx.to.Some? == tx.functionSelector.Some? && tx.functionSelector.Some? == tx.calldata.Some?
      ensures tx.to.Some? <==> event.transactions != []
      ensures tx.FirstTransaction() == if event.transactions == [] then None else Some(event.transactions[0])
      ensures tx.mevGasPrice.None? && tx.gasUsed.None?
    {
      var first := if event.transactions == [] then None else Some(event.transactions[0]);
      PendingTransaction(
        event.hash,
        Some(event.logs),
        if first.Some? then Some(first.value.to) else None,
        if first.Some? then Some(first.value.functionSelector) else None,
        if first.Some? then Some(first.value.calldata) else None,
        None,
        None)
    }
  }

  /**
   * A pending bundle from the stream. `PendingBundle::new` is the field-wise
   * constructor of this datatype.
   */
  datatype PendingBundle = PendingBundle(
    hash: TxHash,
    logs: Option<seq<EventTransactionLog>>,
    transactions: Option<seq<EventTransaction>>,
    mevGasPrice: Option<U256>,
    gasUsed: Option<U256>)
  {
    /** The event this bundle was projected from, when both lists are present. */
    function ToEvent(): Option<Event> {
      if logs.Some? && transactions.Some? then Some(Event(hash, logs.value, transactions.value)) else None
    }

    /** The transaction view of the same data: only the first entry is kept. */
    function FirstOnly(): PendingTransaction {
      var txs := if transactions.Some? then transactions.value else [];
      PendingTransaction(
        hash, logs,
        if txs == [] then None else Some(txs[0].to),
        if txs == [] then None else Some(txs[0].functionSelector),
        if txs == [] then None else Some(txs[0].calldata),
        mevGasPrice, gasUsed)
    }

    /** `From<&Event>`: keeps the hash, the logs and every transaction entry, in order. */
    static function From(event: Event): (b: PendingBundle)
      ensures b.hash == event.hash && b.ToEvent() == Some(event)
      ensures b.transactions.Some? && |b.transactions.value| == |event.transactions|
      ensures forall i :: 0 <= i < |event.transactions| ==> b.transactions.value[i] == event.transactions[i]
      ensures b.mevGasPrice.None? && b.gasUsed.None?
    {
      PendingBundle(event.hash, Some(event.logs), Some(event.transactions), None, None)
    }
  }

  /** The transaction projection is the bundle projection cut down to its first entry. */
  lemma ProjectionsAgree(event: Event)
    ensures PendingBundle.From(event).FirstOnly() == PendingTransaction.From(event)
  {
  }

  /** The bundle projection loses nothing: different events give different bundles. */
  lemma BundleProjectionInjective(e1: Event, e2: Event)
    ensures PendingBundle.From(e1) == PendingBundle.From(e2) ==> e1 == e2
  {
    assert PendingBundle.From(e1).ToEvent() == Some(e1);
    assert PendingBundle.From(e2).ToEvent() == Some(e2);
  }

  /** What the stream handler receives. */
  datatype PendingTxOrBundle = Tx(tx: PendingTransaction) | Bundle(bundle: PendingBundle)

  // ---------------------------------------------------------------------
  // Bundle submission
  // ---------------------------------------------------------------------

  datatype ProtocolVersion = V1

  datatype InclusionParams = InclusionParams(block: U64, maxBlock: Option<U64>)

  /**
   * A bundle entry: a transaction seen on the stream, by hash, or a signed
   * transaction (the source's `Tx` variant, named `SignedTx` here so that it
   * does not clash with `PendingTxOrBundle.Tx`).
   */
  datatype BundleTx =
    | TxHash(hash: TxHash)
    | SignedTx(tx: Bytes, canRevert: bool)

  datatype HintPreference = HintPreference(
    calldata: Option<bool>,
    contractAddress: Option<bool>,
    functionSelector: Option<bool>,
    logs: Option<bool>,
    txHash: Option<bool>)

  datatype PrivacyParams = PrivacyParams(hints: Option<HintPreference>, builders: seq<string>)

  datatype Refund = Refund(bodyIdx: U64, percent: U32)

  datatype RefundConfig = RefundConfig(address: string, percent: U32)

  datatype ValidityParams = ValidityParams(refund: Option<seq<Refund>>, refundConfig: Option<seq<RefundConfig>>)

  /** Parameters of `mev_sendBundle`; the order of `body` is the execution order. */
  datatype Bundle = Bundle(
    version: ProtocolVersion,
    inclusion: InclusionParams,
    body: seq<BundleTx>,
    validity: Option<ValidityParams>,
    privacy: Option<PrivacyParams>)

  datatype SendBundleResponse = SendBundleResponse(bundleHash: string)

  datatype SendBundleResult = SendBundleResult(bundleHash: string)
  {
    static function FromResponse(response: SendBundleResponse): (r: SendBundleResult)
      ensures r.bundleHash == response.bundleHash
    {
      SendBundleResult(response.bundleHash)
    }
  }
}
