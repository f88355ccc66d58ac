/** The bot's process-wide configuration, read once at startup and never
    changed afterwards: an immutable record passed to every component. */
module Config {

  /** An unordered pool pair as listed in the configuration. */
  type PoolPair = (string, string)

  datatype Config = Config(
    userAddress: string,
    privateKeyHex: string,
    /** symbol -> composite key "collection$category$type$additionalKey" */
    tokenKeys: map<string, string>,
    pools: seq<PoolPair>,
    fallbackFeeTiers: seq<int>,
    /** per ordered pair fee tiers; an empty list counts as absent */
    poolFeeOverride: map<PoolPair, seq<int>>,
    slippageBps: int,
    minProfitBps: int,
    profitBufferBps: int,
    startToken: string,
    startAmount: real,
    liquidityCheckAmount: real,
    /** the per-hop input cap; 0 (the value when unset) disables clamping */
    maxHopInput: real,
    dryRun: bool,
    maxCyclesPerScan: nat,
    poolRefreshInterval: int
  )

  /** The token table shipped with the bot: USDC and USDT are aliases. */
  function DefaultTokenKeys(): map<string, string> {
    map[
      "GALA" := "GALA$Unit$none$none",
      "GUSDC" := "GUSDC$Unit$none$none",
      "USDC" := "GUSDC$Unit$none$none",
      "GUSDT" := "GUSDT$Unit$none$none",
      "USDT" := "GUSDT$Unit$none$none",
      "GWETH" := "GWETH$Unit$none$none"
    ]
  }

  /** The configuration with every default of the shipped configuration
      file; only the secrets and the dry-run switch come from outside. */
  function DefaultConfig(userAddress: string, privateKeyHex: string, dryRun: bool): (c: Config)
    ensures c.poolRefreshInterval > 0
  {
    Config(
      userAddress := userAddress,
      privateKeyHex := privateKeyHex,
      tokenKeys := DefaultTokenKeys(),
      pools := [("GUSDC", "GALA"), ("GUSDT", "GALA"), ("GALA", "GWETH"), ("GWETH", "GUSDC")],
      fallbackFeeTiers := [500, 3000, 10000],
      poolFeeOverride := map[],
      slippageBps := 40,
      minProfitBps := 20,
      profitBufferBps := 10,
      startToken := "GUSDC",
      startAmount := 100.0,
      liquidityCheckAmount := 100.0,
      maxHopInput := 0.0,
      dryRun := dryRun,
      maxCyclesPerScan := 12,
      poolRefreshInterval := 10
    )
  }
}
