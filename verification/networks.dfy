/**
 * The registry of named networks and the name each one is written as on
 * the command line and in configuration files.
 */
module Networks {
  import opened Wrappers
  import opened Chain

  datatype CosmosNetwork =
    | JunoTestnet
    | JunoMainnet
    | JunoLocal
    | OsmosisMainnet
    | OsmosisTestnet
    | OsmosisLocal
    | Dragonfire
    | WasmdLocal
    | SeiMainnet
    | SeiTestnet
    | StargazeTestnet
    | StargazeMainnet

  /** The name of a network (`as_str`, also its `Display` form and its serialised form). */
  function AsStr(n: CosmosNetwork): (name: string)
    ensures name != []
  {
    match n
    case JunoTestnet => "juno-testnet"
    case JunoMainnet => "juno-mainnet"
    case JunoLocal => "juno-local"
    case OsmosisMainnet => "osmosis-mainnet"
    case OsmosisTestnet => "osmosis-testnet"
    case OsmosisLocal => "osmosis-local"
    case Dragonfire => "dragonfire"
    case WasmdLocal => "wasmd-local"
    case SeiMainnet => "sei-mainnet"
    case SeiTestnet => "sei-testnet"
    case StargazeTestnet => "stargaze-testnet"
    case StargazeMainnet => "stargaze-mainnet"
  }

  /**
   * `from_str`: the network with exactly this name; any other text is an
   * `UnknownNetwork` error carrying the text.
   */
  function FromStr(s: string): (r: Result<CosmosNetwork, Error>)
    ensures r.Ok? ==> AsStr(r.value) == s
    ensures r.Err? ==> r.error == UnknownNetwork(s)
  {
    if s == "juno-testnet" then Ok(JunoTestnet)
    else if s == "juno-mainnet" then Ok(JunoMainnet)
    else if s == "juno-local" then Ok(JunoLocal)
    else if s == "osmosis-mainnet" then Ok(OsmosisMainnet)
    else if s == "osmosis-testnet" then Ok(OsmosisTestnet)
    else if s == "osmosis-local" then Ok(OsmosisLocal)
    else if s == "dragonfire" then Ok(Dragonfire)
    else if s == "wasmd-local" then Ok(WasmdLocal)
    else if s == "sei-mainnet" then Ok(SeiMainnet)
    else if s == "sei-testnet" then Ok(SeiTestnet)
    else if s == "stargaze-testnet" then Ok(StargazeTestnet)
    else if s == "stargaze-mainnet" then Ok(StargazeMainnet)
    else Err(UnknownNetwork(s))
  }

  /** Every network's name parses back to that network. */
  lemma {:induction false} FromStrAsStr(n: CosmosNetwork)
    ensures FromStr(AsStr(n)) == Ok(n)
  {
    match n
    case JunoTestnet =>
    case JunoMainnet =>
    case JunoLocal =>
    case OsmosisMainnet =>
    case OsmosisTestnet =>
    case OsmosisLocal =>
    case Dragonfire =>
    case WasmdLocal =>
    case SeiMainnet =>
    case SeiTestnet =>
    case StargazeTestnet =>
    case StargazeMainnet =>
  }

  /** A text parses exactly when it is the name of some network, and then to that network. */
  lemma {:induction false} FromStrIffName(s: string)
    ensures FromStr(s).Ok? <==> exists n :: AsStr(n) == s
    ensures forall n :: AsStr(n) == s ==> FromStr(s) == Ok(n)
  {
    forall n | AsStr(n) == s
      ensures FromStr(s) == Ok(n)
    {
      FromStrAsStr(n);
    }
    if FromStr(s).Ok? {
      assert AsStr(FromStr(s).value) == s;
    }
  }

  /** Distinct networks have distinct names. */
  lemma {:induction false} AsStrInjective(m: CosmosNetwork, n: CosmosNetwork)
    requires AsStr(m) == AsStr(n)
    ensures m == n
  {
    FromStrAsStr(m);
    FromStrAsStr(n);
  }
}
