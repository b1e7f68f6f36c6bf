/**
 * The command-line options for reaching a network, and how they override
 * the network's default builder.
 */
module Cli {
  import opened Wrappers
  import opened Chain
  import opened Networks

  /** `CosmosOpt`: a network and the optional overrides given with it. */
  datatype CosmosOpt = CosmosOpt(
    network: CosmosNetwork,
    cosmosGrpc: Option<string>,
    chainId: Option<string>,
    gasMultiplier: Option<real>,
    refererHeader: Option<string>)

  /** `CosmosBuilder::set_referer_header`: only the configured referer changes. */
  function SetRefererHeader(b: CosmosBuilder, value: string): (r: CosmosBuilder)
    ensures r.config.refererHeader == Some(value)
    ensures r.grpcUrl == b.grpcUrl && r.chainId == b.chainId && r.gasCoin == b.gasCoin
    ensures r.addressType == b.addressType
    ensures r.config == b.config.(refererHeader := r.config.refererHeader)
  {
    b.(config := b.config.(refererHeader := Some(value)))
  }

  /**
   * The builder the options describe, starting from the network's default
   * `base`: each option given replaces its one field, and every other field
   * keeps the network's value.
   */
  function Overridden(opt: CosmosOpt, base: CosmosBuilder): (b: CosmosBuilder)
    ensures b.grpcUrl == (if opt.cosmosGrpc.Some? then opt.cosmosGrpc.value else base.grpcUrl)
    ensures b.chainId == (if opt.chainId.Some? then opt.chainId.value else base.chainId)
    ensures b.config.gasEstimateMultiplier
      == (if opt.gasMultiplier.Some? then opt.gasMultiplier.value else base.config.gasEstimateMultiplier)
    ensures b.config.refererHeader == (if opt.refererHeader.Some? then opt.refererHeader else base.config.refererHeader)
    ensures b.gasCoin == base.gasCoin && b.addressType == base.addressType
    ensures b.config == base.config.(gasEstimateMultiplier := b.config.gasEstimateMultiplier,
                                     refererHeader := b.config.refererHeader)
  {
    var b1 := if opt.cosmosGrpc.Some? then base.(grpcUrl := opt.cosmosGrpc.value) else base;
    var b2 := if opt.chainId.Some? then b1.(chainId := opt.chainId.value) else b1;
    var b3 := if opt.gasMultiplier.Some? then b2.(config := b2.config.(gasEstimateMultiplier := opt.gasMultiplier.value)) else b2;
    if opt.refererHeader.Some? then SetRefererHeader(b3, opt.refererHeader.value) else b3
  }

  /** Without overrides the network's builder is used as it is. */
  lemma OverriddenNothing(network: CosmosNetwork, base: CosmosBuilder)
    ensures Overridden(CosmosOpt(network, None, None, None, None), base) == base
  {
  }

  /**
   * `CosmosOpt::into_builder`: takes the network's default builder, failing
   * when the network's builder cannot be made, and applies each override
   * that was given.
   */
  method IntoBuilder(opt: CosmosOpt, networkBuilder: CosmosNetwork -> Result<CosmosBuilder, Error>)
    returns (r: Result<CosmosBuilder, Error>)
    ensures networkBuilder(opt.network).Err? ==> r == Err(networkBuilder(opt.network).error)
    ensures networkBuilder(opt.network).Ok? ==> r == Ok(Overridden(opt, networkBuilder(opt.network).value))
  {
    var base := networkBuilder(opt.network);
    if base.Err? {
      return Err(base.error);
    }
    var builder := base.value;
    if opt.cosmosGrpc.Some? {
      builder := builder.(grpcUrl := opt.cosmosGrpc.value);
    }
    if opt.chainId.Some? {
      builder := builder.(chainId := opt.chainId.value);
    }
    if opt.gasMultiplier.Some? {
      builder := builder.(config := builder.config.(gasEstimateMultiplier := opt.gasMultiplier.value));
    }
    if opt.refererHeader.Some? {
      builder := SetRefererHeader(builder, opt.refererHeader.value);
    }
    return Ok(builder);
  }
}
