/** The market table the dashboard ships with. */
module MockYieldData {
  import opened Common
  import opened YieldTypes

  function Row(protocol: string, chain: string, apy: real, change: real, tvl: string,
               tvlNumeric: real, risk: Risk, volatility: real, gasScore: int): YieldRow
  {
    YieldRow(protocol, chain, apy, change, tvl, tvlNumeric, risk, volatility, gasScore, None)
  }

  const AaveUsdc := Row("Aave USDC", "Ethereum", 7.2, 0.3, "2.1B", 2100000000.0, Low, 0.2, 3)
  const CompoundUsdt := Row("Compound USDT", "Polygon", 6.8, -0.1, "890M", 890000000.0, Low, 0.15, 9)
  const YearnDai := Row("Yearn DAI", "Arbitrum", 9.1, 0.8, "340M", 340000000.0, Medium, 0.35, 7)
  const Curve3Pool := Row("Curve 3Pool", "Ethereum", 5.4, -0.2, "1.8B", 1800000000.0, Low, 0.1, 4)
  const ConvexFrax := Row("Convex FRAX", "Ethereum", 8.7, 0.5, "120M", 120000000.0, Medium, 0.4, 5)
  const BeefyFinance := Row("Beefy Finance", "Polygon", 12.3, 1.2, "85M", 85000000.0, High, 0.8, 8)
  const LidoSteth := Row("Lido stETH", "Ethereum", 4.1, 0.1, "32.5B", 32500000000.0, Low, 0.05, 6)
  const UniswapV3 := Row("Uniswap V3 ETH/USDC", "Arbitrum", 15.7, -0.9, "450M", 450000000.0, High, 1.2, 6)

  function YieldTable(): seq<YieldRow> {
    [AaveUsdc, CompoundUsdt, YearnDai, Curve3Pool, ConvexFrax, BeefyFinance, LidoSteth, UniswapV3]
  }
}
