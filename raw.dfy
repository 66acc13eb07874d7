/**
 * The raw payloads of one refresh cycle, as the exchange returns them. Every
 * JSON key the normaliser reads with `.get` is an `Option`; amounts are exact
 * reals that are already parsed, and timestamps are integer milliseconds.
 */
module RawData {
  import opened Wrappers

  datatype RawLeverage = RawLeverage(kind: Option<string>, value: Option<int>)

  datatype RawPosition = RawPosition(
    coin: Option<string>,
    szi: Option<real>,
    entryPx: Option<real>,
    positionValue: Option<real>,
    unrealizedPnl: Option<real>,
    marginUsed: Option<real>,
    liquidationPx: Option<real>,
    leverage: Option<RawLeverage>,
    returnOnEquity: Option<real>)

  /** One element of `assetPositions`; its `position` key may be missing. */
  datatype RawAssetPosition = RawAssetPosition(position: Option<RawPosition>)

  const EmptyPosition := RawPosition(None, None, None, None, None, None, None, None, None)

  datatype RawMarginSummary = RawMarginSummary(
    accountValue: Option<real>,
    totalMarginUsed: Option<real>,
    withdrawable: Option<real>)

  datatype RawUserState = RawUserState(
    marginSummary: Option<RawMarginSummary>,
    assetPositions: Option<seq<RawAssetPosition>>)

  /** One vault-equity entry, after the per-vault detail enrichment. */
  datatype RawVault = RawVault(
    vaultAddress: Option<string>,
    vaultName: Option<string>,
    equity: Option<real>,
    pnl: Option<real>,
    roi: Option<real>,
    depositValue: Option<real>,
    apr: Option<real>,
    leader: Option<string>,
    leaderFraction: Option<real>,
    leaderCommission: Option<real>,
    maxDistributable: Option<real>,
    isClosed: Option<bool>)

  /** The answer of the per-vault detail query. */
  datatype RawVaultDetails = RawVaultDetails(
    name: Option<string>,
    apr: Option<real>,
    leader: Option<string>,
    leaderFraction: Option<real>,
    leaderCommission: Option<real>,
    maxDistributable: Option<real>,
    isClosed: Option<bool>)

  datatype RawHistoryEntry = RawHistoryEntry(time: Option<int>, accountValue: Option<real>)

  /** `portfolio_data["allTime"]`: a JSON object, or some other JSON value. */
  datatype RawAllTime =
    | AllTimeObject(accountValueHistory: Option<seq<RawHistoryEntry>>)
    | AllTimeOther

  /** The portfolio payload: a JSON object (possibly empty), or some other JSON value. */
  datatype RawPortfolio =
    | PortfolioObject(allTime: Option<RawAllTime>)
    | PortfolioOther

  datatype RawFill = RawFill(
    time: Option<int>,
    coin: Option<string>,
    side: Option<string>,
    sz: Option<real>,
    px: Option<real>,
    closedPnl: Option<real>,
    fee: Option<real>)

  datatype RawFunding = RawFunding(
    time: Option<int>,
    coin: Option<string>,
    usdc: Option<real>,
    fundingRate: Option<real>)

  datatype RawOrder = RawOrder(
    coin: Option<string>,
    side: Option<string>,
    limitPx: Option<real>,
    sz: Option<real>,
    oid: Option<int>,
    orderType: Option<string>,
    triggerPx: Option<real>,
    reduceOnly: Option<bool>)

  /** A non-empty referral payload; the empty (falsy) payload is `None` in the bundle. */
  datatype RawReferral = RawReferral(
    totalReferralUsdc: Option<real>,
    totalReferralVolume: Option<real>,
    referrer: Option<string>,
    referees: Option<seq<string>>)

  /** Everything one fetch cycle hands to the normaliser. */
  datatype RawBundle = RawBundle(
    userState: RawUserState,
    vaultEquities: seq<RawVault>,
    portfolio: RawPortfolio,
    tradeFills: seq<RawFill>,
    fundingData: seq<RawFunding>,
    openOrders: seq<RawOrder>,
    referral: Option<RawReferral>,
    tradeHistoryCount: int)
}
