/** The per-chain settings and the checks made when they are built. */
module ChainConfigs {
  const SWEEP_GAS_LIMIT_NATIVE := 25_000
  const SWEEP_GAS_LIMIT_ERC20 := 65_000
  const GAS_FUNDING_HEADROOM := 2

  datatype ChainConfig = ChainConfig(
    chainId: int, finalityDepth: nat, minDepositNative: int, minDepositErc20: int, fundingCap: int, minGasPrice: int,
    lookback: int := 300, maxLookback: int := 7_200, chunk: int := 5_000)

  predicate ValidConfig(cfg: ChainConfig) {
    && cfg.fundingCap < cfg.minDepositNative
    && 0 < cfg.lookback <= cfg.maxLookback
    && cfg.chunk > 0
    && cfg.minGasPrice > 0
    && cfg.fundingCap >= SWEEP_GAS_LIMIT_ERC20 * cfg.minGasPrice * GAS_FUNDING_HEADROOM
  }

  const SAPPHIRE_TESTNET := ChainConfig(
    23295, 2, 50_000_000_000_000_000, 1_000_000_000_000_000_000, 20_000_000_000_000_000, 100_000_000_000,
    lookback := 640, maxLookback := 1_000, chunk := 100)

  const SAPPHIRE_LOCALNET_CHAIN_ID := 23293

  /** The chain table; a deployment against the local network adds its mirror of the testnet. */
  function ChainTable(localnet: bool): seq<ChainConfig> {
    [SAPPHIRE_TESTNET,
     ChainConfig(84532, 15, 1_000_000_000_000_000, 1_000_000, 200_000_000_000_000, 100_000_000,
                 lookback := 1_800, maxLookback := 43_200),
     ChainConfig(11155111, 2, 50_000_000_000_000_000, 50_000_000, 2_000_000_000_000_000, 100_000_000),
     ChainConfig(8453, 15, 2_000_000_000_000_000, 1_000_000, 200_000_000_000_000, 5_000_000,
                 lookback := 1_800, maxLookback := 43_200),
     ChainConfig(1, 32, 2_000_000_000_000_000, 1_000_000, 1_000_000_000_000_000, 100_000_000),
     ChainConfig(999, 10, 50_000_000_000_000_000, 1_000_000, 200_000_000_000_000, 100_000_000,
                 lookback := 3_600, maxLookback := 86_400)]
    + if localnet then [SAPPHIRE_TESTNET.(chainId := SAPPHIRE_LOCALNET_CHAIN_ID)] else []
  }

  /** Every shipped entry passes the checks, and no chain has two. */
  lemma ShippedConfigsAreValid(localnet: bool)
    ensures forall i :: 0 <= i < |ChainTable(localnet)| ==> ValidConfig(ChainTable(localnet)[i])
    ensures forall i, j :: 0 <= i < j < |ChainTable(localnet)| ==>
              ChainTable(localnet)[i].chainId != ChainTable(localnet)[j].chainId
  {
  }
}
