/**
 * The records the yield dashboard passes around: a row of the market table,
 * the user's open positions, and the keys the table can be sorted by.
 */
module YieldTypes {
  import opened Common

  datatype Risk = Low | Medium | High

  datatype SortField = ByProtocol | ByChain | ByApy | ByChange | ByTvl

  datatype SortDirection = Asc | Desc

  /** A position the user holds; `entryDate` is a timestamp in milliseconds. */
  datatype UserPosition = UserPosition(
    protocol: string,
    chain: string,
    amount: real,
    currentApy: real,
    invested: real,
    currentValue: real,
    yieldEarned: real,
    entryDate: int,
    riskLevel: Risk)

  /**
   * A row of the market table. `tvl` is the display text, `tvlNumeric` the
   * value; `userPosition` is attached when the user holds that protocol.
   */
  datatype YieldRow = YieldRow(
    protocol: string,
    chain: string,
    apy: real,
    change: real,
    tvl: string,
    tvlNumeric: real,
    riskLevel: Risk,
    volatility: real,
    gasScore: int,
    userPosition: Option<UserPosition>)
}
