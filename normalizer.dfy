/**
 * The refresh cycle: the fetch policy (which sections are mandatory), the
 * normaliser that turns one raw bundle into the account record, and the
 * coordinator that keeps the latest record and its refresh interval.
 */
module Normalizer {
  import opened Wrappers
  import opened Constants
  import opened Windows
  import opened RawData
  import opened AccountModel
  import opened Positions
  import opened Vaults
  import opened AccountHistory
  import opened Fills
  import opened Funding
  import opened Orders

  function MarginSummaryOf(u: RawUserState): RawMarginSummary
  {
    u.marginSummary.GetOr(RawMarginSummary(None, None, None))
  }

  /**
   * The account record of one raw bundle, `now` being the refresh time in
   * milliseconds. The record's totals agree with its own collections.
   */
  function Normalize(b: RawBundle, now: int): (d: AccountData)
    ensures d.accountValue == MarginSummaryOf(b.userState).accountValue.GetOr(0.0)
    ensures d.unrealizedPnl == SumUnrealizedPnl(d.positions)
    ensures forall i :: 0 <= i < |d.positions| ==> d.positions[i].size > 0.0
    ensures d.totalVaultEquity == SumEquity(d.vaults)
    ensures |d.vaults| == |b.vaultEquities|
    ensures d.trades24h <= |b.tradeFills|
    ensures |d.recentTrades| <= |b.tradeFills|
    ensures d.fundingByCoin == ByCoin(b.fundingData, Cutoff24h(now))
    ensures d.fundingByCoin.Keys == CoinSet(b.fundingData)
    ensures d.openOrdersCount == |d.openOrders| == |b.openOrders|
    ensures b.referral.None? ==> d.referralEarnings == 0.0 && d.referralVolume == 0.0 && d.referralData.None?
  {
    var summary := MarginSummaryOf(b.userState);
    var accountValue := summary.accountValue.GetOr(0.0);
    var assetPositions := b.userState.assetPositions.GetOr([]);
    var positions := ParsedPositions(assetPositions);
    ParsedPositionsExact(assetPositions);
    var vaults := ParsedVaults(b.vaultEquities);
    ParsedVaultsAt(b.vaultEquities);
    var history := HistoryOf(b.portfolio);
    var fills := b.tradeFills;
    CountSinceMonotone(fills, FillTime, Cutoff24h(now), Cutoff24h(now));
    var funding := b.fundingData;
    ByCoinPerCoin(funding, Cutoff24h(now));
    var orders := ParsedOrders(b.openOrders);
    var referral := ParseReferral(b.referral);
    AccountData(
      accountValue := accountValue,
      unrealizedPnl := SumUnrealizedPnl(positions),
      marginUsed := summary.totalMarginUsed.GetOr(0.0),
      withdrawable := summary.withdrawable.GetOr(0.0),
      positions := positions,
      vaults := vaults,
      totalVaultEquity := SumEquity(vaults),
      pnl24h := WindowPnl(accountValue, ReferenceValue(history, Cutoff24h(now))),
      pnl7d := WindowPnl(accountValue, ReferenceValue(history, Cutoff7d(now))),
      pnl30d := WindowPnl(accountValue, ReferenceValue(history, Cutoff30d(now))),
      pnlAllTime := AllTimePnl(history, accountValue),
      accountValueHistory := history,
      realizedPnl24h := SumSince(fills, FillTime, ClosedPnl, Cutoff24h(now)),
      realizedPnl7d := SumSince(fills, FillTime, ClosedPnl, Cutoff7d(now)),
      realizedPnl30d := SumSince(fills, FillTime, ClosedPnl, Cutoff30d(now)),
      trades24h := CountSince(fills, FillTime, Cutoff24h(now)),
      feesPaid24h := SumSince(fills, FillTime, Fee, Cutoff24h(now)),
      feesPaid30d := SumSince(fills, FillTime, Fee, Cutoff30d(now)),
      recentTrades := RecentTradesOf(fills, b.tradeHistoryCount),
      funding24h := SumSince(funding, FundingTime, Usdc, Cutoff24h(now)),
      funding7d := SumSince(funding, FundingTime, Usdc, Cutoff7d(now)),
      funding30d := SumSince(funding, FundingTime, Usdc, Cutoff30d(now)),
      fundingByCoin := ByCoin(funding, Cutoff24h(now)),
      openOrdersCount := |orders|,
      openOrders := orders,
      referralEarnings := referral.earnings,
      referralVolume := referral.volume,
      referralData := referral.info)
  }

  /** The normaliser as the source runs it: one loop per section, in order. */
  method ParseData(b: RawBundle, now: int) returns (d: AccountData)
    ensures d == Normalize(b, now)
  {
    var summary := MarginSummaryOf(b.userState);
    var accountValue := summary.accountValue.GetOr(0.0);
    var positions, totalUnrealizedPnl := ParsePositions(b.userState.assetPositions.GetOr([]));
    var vaults, totalVaultEquity := ParseVaults(b.vaultEquities);
    var history := HistoryOf(b.portfolio);
    var pnl24h, pnl7d, pnl30d, pnlAllTime := AccountPnl(history, accountValue, now);
    var realized24h, realized7d, realized30d, trades24h, fees24h, fees30d := AggregateFills(b.tradeFills, now);
    var recentTrades := RecentTrades(b.tradeFills, b.tradeHistoryCount);
    var funding24h, funding7d, funding30d, fundingByCoin := AggregateFunding(b.fundingData, now);
    var orders := ParseOrders(b.openOrders);
    assert orders == ParsedOrders(b.openOrders);
    var referral := ParseReferral(b.referral);
    d := AccountData(
      accountValue, totalUnrealizedPnl, summary.totalMarginUsed.GetOr(0.0), summary.withdrawable.GetOr(0.0),
      positions, vaults, totalVaultEquity,
      pnl24h, pnl7d, pnl30d, pnlAllTime, history,
      realized24h, realized7d, realized30d, trades24h, fees24h, fees30d, recentTrades,
      funding24h, funding7d, funding30d, fundingByCoin,
      |orders|, orders,
      referral.earnings, referral.volume, referral.info);
  }

  /**
   * What each query of one cycle returned. A vault address missing from
   * `vaultDetails` is one whose detail query failed.
   */
  datatype FetchResults = FetchResults(
    userState: Result<RawUserState, string>,
    vaultEquities: Result<seq<RawVault>, string>,
    vaultDetails: map<string, RawVaultDetails>,
    portfolio: Result<RawPortfolio, string>,
    tradeFills: Result<seq<RawFill>, string>,
    fundingData: Result<seq<RawFunding>, string>,
    openOrders: Result<seq<RawOrder>, string>,
    referral: Result<Option<RawReferral>, string>,
    tradeHistoryCountOption: Option<int>)

  /** Merges a vault's detail answer into it; a vault without address or without details is left as it is. */
  function EnrichVault(v: RawVault, details: map<string, RawVaultDetails>): (r: RawVault)
    ensures r.vaultAddress == v.vaultAddress && r.equity == v.equity && r.pnl == v.pnl && r.roi == v.roi
    ensures (v.vaultAddress.GetOr("") == "" || v.vaultAddress.GetOr("") !in details) ==> r == v
    ensures v.vaultAddress.GetOr("") != "" && v.vaultAddress.GetOr("") in details ==>
      var d := details[v.vaultAddress.GetOr("")];
      && r.vaultName == Some(d.name.GetOr(""))
      && r.apr == Some(d.apr.GetOr(0.0))
      && r.leader == Some(d.leader.GetOr(""))
      && r.leaderFraction == Some(d.leaderFraction.GetOr(0.0))
      && r.leaderCommission == Some(d.leaderCommission.GetOr(0.0))
      && r.maxDistributable == Some(d.maxDistributable.GetOr(0.0))
      && r.isClosed == Some(d.isClosed.GetOr(false))
      && r.depositValue == v.depositValue
  {
    var address := v.vaultAddress.GetOr("");
    if address != "" && address in details then
      var d := details[address];
      v.(vaultName := Some(d.name.GetOr("")),
         apr := Some(d.apr.GetOr(0.0)),
         leader := Some(d.leader.GetOr("")),
         leaderFraction := Some(d.leaderFraction.GetOr(0.0)),
         leaderCommission := Some(d.leaderCommission.GetOr(0.0)),
         maxDistributable := Some(d.maxDistributable.GetOr(0.0)),
         isClosed := Some(d.isClosed.GetOr(false)))
    else v
  }

  /** The enrichment loop: every vault is kept, in order, and merged with its own detail answer. */
  function EnrichVaults(vs: seq<RawVault>, details: map<string, RawVaultDetails>): (r: seq<RawVault>)
    ensures |r| == |vs|
    ensures forall i :: 0 <= i < |vs| ==> r[i] == EnrichVault(vs[i], details)
    ensures forall i :: 0 <= i < |vs| ==> r[i].vaultAddress == vs[i].vaultAddress && r[i].equity == vs[i].equity
    ensures details == map[] ==> r == vs
  {
    seq(|vs|, i requires 0 <= i < |vs| => EnrichVault(vs[i], details))
  }

  /**
   * The fetch policy: a failed account-state or vault-equity query fails the
   * cycle; every other failed query leaves its section empty.
   */
  function FetchAll(r: FetchResults): (out: Result<RawBundle, string>)
    ensures out.Failure? <==> r.userState.Failure? || r.vaultEquities.Failure?
    ensures r.userState.Failure? ==> out == Failure(r.userState.error)
    ensures r.userState.Success? && r.vaultEquities.Failure? ==> out == Failure(r.vaultEquities.error)
    ensures out.Success? ==> out.value.userState == r.userState.value
    ensures out.Success? ==> |out.value.vaultEquities| == |r.vaultEquities.value|
    ensures out.Success? ==> out.value.vaultEquities == EnrichVaults(r.vaultEquities.value, r.vaultDetails)
    ensures out.Success? && r.portfolio.Success? ==> out.value.portfolio == r.portfolio.value
    ensures out.Success? && r.tradeFills.Success? ==> out.value.tradeFills == r.tradeFills.value
    ensures out.Success? && r.fundingData.Success? ==> out.value.fundingData == r.fundingData.value
    ensures out.Success? && r.openOrders.Success? ==> out.value.openOrders == r.openOrders.value
    ensures out.Success? && r.referral.Success? ==> out.value.referral == r.referral.value
    ensures out.Success? ==> out.value.tradeHistoryCount == r.tradeHistoryCountOption.GetOr(DefaultTradeHistoryCount)
    ensures out.Success? && r.fundingData.Failure? ==> out.value.fundingData == []
    ensures out.Success? && r.tradeFills.Failure? ==> out.value.tradeFills == []
    ensures out.Success? && r.openOrders.Failure? ==> out.value.openOrders == []
    ensures out.Success? && r.referral.Failure? ==> out.value.referral == None
    ensures out.Success? && r.portfolio.Failure? ==> out.value.portfolio == PortfolioObject(None)
  {
    match r.userState
    case Failure(e) => Failure(e)
    case Success(userState) =>
      match r.vaultEquities
      case Failure(e) => Failure(e)
      case Success(vaults) =>
        Success(RawBundle(
          userState := userState,
          vaultEquities := EnrichVaults(vaults, r.vaultDetails),
          portfolio := r.portfolio.GetOr(PortfolioObject(None)),
          tradeFills := r.tradeFills.GetOr([]),
          fundingData := r.fundingData.GetOr([]),
          openOrders := r.openOrders.GetOr([]),
          referral := r.referral.GetOr(None),
          tradeHistoryCount := r.tradeHistoryCountOption.GetOr(DefaultTradeHistoryCount)))
  }

  datatype UpdateFailed = UpdateFailed(message: string)

  const UpdateFailedPrefix := "Error communicating with Hyperliquid API: "

  /** One refresh: any failure becomes a typed `UpdateFailed` carrying the cause. */
  function UpdateData(r: FetchResults, now: int): (out: Result<AccountData, UpdateFailed>)
    ensures out.Failure? <==> r.userState.Failure? || r.vaultEquities.Failure?
    ensures out.Failure? ==> FetchAll(r).Failure? && out.error.message == UpdateFailedPrefix + FetchAll(r).error
    ensures out.Success? ==> out.value.accountValue == MarginSummaryOf(r.userState.value).accountValue.GetOr(0.0)
    ensures out.Success? ==> FetchAll(r).Success? && out.value == Normalize(FetchAll(r).value, now)
  {
    match FetchAll(r)
    case Failure(e) => Failure(UpdateFailed(UpdateFailedPrefix + e))
    case Success(bundle) => Success(Normalize(bundle, now))
  }

  /**
   * A failed funding query degrades only the funding figures: the cycle
   * still succeeds, its funding totals are 0 and its breakdown is empty.
   */
  lemma FundingFailureDegrades(r: FetchResults, now: int)
    requires r.userState.Success? && r.vaultEquities.Success? && r.fundingData.Failure?
    ensures UpdateData(r, now).Success?
    ensures var d := UpdateData(r, now).value;
      d.funding24h == 0.0 && d.funding7d == 0.0 && d.funding30d == 0.0 && d.fundingByCoin == map[] &&
      d.accountValue == MarginSummaryOf(r.userState.value).accountValue.GetOr(0.0)
  {
    var b := FetchAll(r).value;
    assert b.fundingData == [];
    assert CoinSet(b.fundingData) == {};
  }

  /** The integration's coordinator: the latest account record and the refresh interval in seconds. */
  class Coordinator {
    var walletAddress: string
    var updateInterval: int
    var data: Option<AccountData>
    var lastUpdateSuccess: bool

    /** The interval comes from the entry's options, 30 seconds when unset. */
    constructor (walletAddress: string, intervalOption: Option<int>)
      ensures this.walletAddress == walletAddress
      ensures updateInterval == intervalOption.GetOr(DefaultUpdateInterval)
      ensures data.None? && !lastUpdateSuccess
    {
      this.walletAddress := walletAddress;
      updateInterval := intervalOption.GetOr(DefaultUpdateInterval);
      data := None;
      lastUpdateSuccess := false;
    }

    /** Re-reads the interval option; only the interval changes. */
    method UpdateOptions(intervalOption: Option<int>)
      modifies this`updateInterval
      ensures updateInterval == intervalOption.GetOr(DefaultUpdateInterval)
    {
      updateInterval := intervalOption.GetOr(DefaultUpdateInterval);
    }

    /**
     * One refresh cycle: a success replaces the latest record, a failure
     * keeps the previous one and is reported.
     */
    method Refresh(results: FetchResults, now: int) returns (out: Result<AccountData, UpdateFailed>)
      modifies this`data, this`lastUpdateSuccess
      ensures out == UpdateData(results, now)
      ensures out.Success? ==> data == Some(out.value) && lastUpdateSuccess
      ensures out.Failure? ==> data == old(data) && !lastUpdateSuccess
    {
      var fetched := FetchAll(results);
      match fetched {
        case Failure(e) =>
          out := Failure(UpdateFailed(UpdateFailedPrefix + e));
          lastUpdateSuccess := false;
        case Success(bundle) =>
          var d := ParseData(bundle, now);
          out := Success(d);
          data := Some(d);
          lastUpdateSuccess := true;
      }
    }
  }
}
