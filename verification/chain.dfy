/**
 * The records the client exchanges with a node and keeps in its
 * configuration. Protobuf payloads are represented by the message they
 * encode (`Payload`), so that conversions can be stated without a byte
 * codec; only the fields the client reads or writes are kept.
 */
module Chain {
  import opened Wrappers

  /** A gRPC status as the client sees it: the numeric code and the message. */
  datatype Status = Status(code: nat, message: string)

  /** `tonic::Code::NotFound`. */
  const NOT_FOUND: nat := 5

  /** The failures the client reports, each with the context it attaches. */
  datatype Error =
    | Rpc(context: string, status: Status)        // a gRPC call returned an error status
    | Transport(message: string)                  // pool checkout, dial, or the JSON-RPC transport failed
    | MissingField(message: string)               // the node left out a field the client needs
    | BroadcastFailed(code: nat, rawLog: string)  // the synchronous broadcast answer had a non-zero code
    | TransactionFailed(code: nat, rawLog: string) // the transaction landed with a non-zero code
    | TimedOut(txhash: string)                    // the finality poll ran out of attempts
    | UnknownNetwork(name: string)                // a network name outside the registry table

  datatype Coin = Coin(denom: string, amount: nat)

  /** `prost_types::Timestamp`. */
  datatype Timestamp = Timestamp(seconds: int, nanos: int)

  /** A protobuf `Any`: a type URL and the encoded message. */
  datatype Any = Any(typeUrl: string, value: Payload)

  /** The encoded bytes of an `Any`, represented by what they encode. */
  datatype Payload =
    | GenericAuthorizationBytes(msg: string)
    | MsgGrantBytes(grant: MsgGrant)
    | MsgExecBytes(exec: MsgExec)
    | OpaqueBytes(bytes: seq<bv8>)   // a message whose fields this model does not inspect

  datatype Grant = Grant(authorization: Option<Any>, expiration: Option<Timestamp>)

  datatype MsgGrant = MsgGrant(granter: string, grantee: string, grant: Option<Grant>)

  datatype MsgExec = MsgExec(grantee: string, msgs: seq<Any>)

  /** The body of a transaction: its messages and memo. */
  datatype TxBody = TxBody(
    messages: seq<Any>,
    memo: string,
    timeoutHeight: nat,
    extensionOptions: seq<Any>,
    nonCriticalExtensionOptions: seq<Any>)

  /** The node's report on a transaction, synchronous or final. */
  datatype TxResponse = TxResponse(code: nat, rawLog: string, txhash: string)

  datatype BaseAccount = BaseAccount(accountNumber: nat, sequence: nat)

  datatype AddressType = Juno | Osmo | Levana | Wasm | Sei | Stargaze

  /** `CosmosConfig`; the optional HTTP client handle is not modelled. */
  datatype CosmosConfig = CosmosConfig(
    rpcUrl: Option<string>,
    gasEstimateMultiplier: real,
    gasPriceLow: real,
    gasPriceHigh: real,
    gasPriceRetryAttempts: nat,
    transactionAttempts: nat,
    refererHeader: Option<string>)

  /** `CosmosConfig::default()`. */
  const DefaultConfig: CosmosConfig := CosmosConfig(
    rpcUrl := None,
    gasEstimateMultiplier := 1.3,
    gasPriceLow := 0.02,
    gasPriceHigh := 0.03,
    gasPriceRetryAttempts := 3,
    transactionAttempts := 30,
    refererHeader := None)

  /** `CosmosBuilder`: how to reach one node, and the settings used with it. */
  datatype CosmosBuilder = CosmosBuilder(
    grpcUrl: string,
    chainId: string,
    gasCoin: string,
    addressType: AddressType,
    config: CosmosConfig)
}
