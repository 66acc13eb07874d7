/** The flat account record each refresh produces, and its parts. */
module AccountModel {
  import opened Wrappers
  import opened RawData

  datatype Side = Long | Short

  datatype Position = Position(
    coin: string,
    size: real,
    side: Side,
    entryPrice: real,
    markPrice: real,
    liquidationPrice: Option<real>,
    leverage: string,
    unrealizedPnl: real,
    marginUsed: real,
    returnOnEquity: real,
    positionValue: real)

  datatype VaultDeposit = VaultDeposit(
    vaultAddress: string,
    vaultName: string,
    equity: real,
    pnl: real,
    roi: real,
    depositValue: real,
    apr: real,
    leaderAddress: string,
    leaderFraction: real,
    leaderEquity: real,
    leaderCommission: real,
    vaultTotalValue: real,
    isClosed: bool)

  datatype RecentTrade = RecentTrade(
    coin: string,
    side: string,
    size: real,
    price: real,
    closedPnl: real,
    fee: real,
    timestamp: int)

  /**
   * The per-coin funding breakdown. `latestTime` is the `latest_time` key,
   * which the source adds to the coin's record only once some event's time
   * exceeds zero.
   */
  datatype CoinFunding = CoinFunding(
    funding24h: real,
    fundingRate: real,
    count: nat,
    latestTime: Option<int>)

  datatype OpenOrder = OpenOrder(
    coin: string,
    side: string,
    price: real,
    size: real,
    orderId: int,
    orderType: string,
    triggerPrice: Option<real>,
    reduceOnly: bool,
    filled: real,
    remaining: real)

  datatype ReferralInfo = ReferralInfo(referrer: string, refereeCount: nat)

  datatype AccountData = AccountData(
    accountValue: real,
    unrealizedPnl: real,
    marginUsed: real,
    withdrawable: real,
    positions: seq<Position>,
    vaults: seq<VaultDeposit>,
    totalVaultEquity: real,
    pnl24h: real,
    pnl7d: real,
    pnl30d: real,
    pnlAllTime: real,
    accountValueHistory: seq<RawHistoryEntry>,
    realizedPnl24h: real,
    realizedPnl7d: real,
    realizedPnl30d: real,
    trades24h: nat,
    feesPaid24h: real,
    feesPaid30d: real,
    recentTrades: seq<RecentTrade>,
    funding24h: real,
    funding7d: real,
    funding30d: real,
    fundingByCoin: map<string, CoinFunding>,
    openOrdersCount: nat,
    openOrders: seq<OpenOrder>,
    referralEarnings: real,
    referralVolume: real,
    referralData: Option<ReferralInfo>)

  function Abs(x: real): (r: real)
    ensures r >= 0.0 && (r == x || r == -x)
  {
    if x < 0.0 then -x else x
  }
}
