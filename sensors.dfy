/**
 * What the dynamic position, order and vault sensors read from the
 * coordinator's latest record: each finds its item by key with a first-match
 * scan, is available only when that scan succeeds, and derives its value.
 */
module Sensors {
  import opened Wrappers
  import opened Seqs
  import opened RawData
  import opened AccountModel
  import opened Funding

  /** The first position of the latest record whose coin is `coin`. */
  function GetPosition(data: Option<AccountData>, coin: string): (r: Option<Position>)
    ensures data.None? ==> r.None?
    ensures data.Some? && r.None? ==> forall p :: p in data.value.positions ==> p.coin != coin
    ensures r.Some? ==> (data.Some? && r.value.coin == coin &&
      (exists i :: 0 <= i < |data.value.positions| && data.value.positions[i] == r.value &&
        forall j :: 0 <= j < i ==> data.value.positions[j].coin != coin))
  {
    if data.None? then None
    else
      var ps := data.value.positions;
      match FirstIndex(ps, (p: Position) => p.coin == coin)
      case None => None
      case Some(i) => Some(ps[i])
  }

  /** The first open order of the latest record whose id is `orderId`. */
  function GetOrder(data: Option<AccountData>, orderId: int): (r: Option<OpenOrder>)
    ensures data.None? ==> r.None?
    ensures data.Some? && r.None? ==> forall o :: o in data.value.openOrders ==> o.orderId != orderId
    ensures r.Some? ==> (data.Some? && r.value.orderId == orderId &&
      (exists i :: 0 <= i < |data.value.openOrders| && data.value.openOrders[i] == r.value &&
        forall j :: 0 <= j < i ==> data.value.openOrders[j].orderId != orderId))
  {
    if data.None? then None
    else
      var os := data.value.openOrders;
      match FirstIndex(os, (o: OpenOrder) => o.orderId == orderId)
      case None => None
      case Some(i) => Some(os[i])
  }

  /** The first vault deposit of the latest record whose address is `vaultAddress`. */
  function GetVault(data: Option<AccountData>, vaultAddress: string): (r: Option<VaultDeposit>)
    ensures data.None? ==> r.None?
    ensures data.Some? && r.None? ==> forall v :: v in data.value.vaults ==> v.vaultAddress != vaultAddress
    ensures r.Some? ==> (data.Some? && r.value.vaultAddress == vaultAddress &&
      (exists i :: 0 <= i < |data.value.vaults| && data.value.vaults[i] == r.value &&
        forall j :: 0 <= j < i ==> data.value.vaults[j].vaultAddress != vaultAddress))
  {
    if data.None? then None
    else
      var vs := data.value.vaults;
      match FirstIndex(vs, (v: VaultDeposit) => v.vaultAddress == vaultAddress)
      case None => None
      case Some(i) => Some(vs[i])
  }

  /** A position sensor is available when the last refresh succeeded and its coin is still listed. */
  function PositionAvailable(lastUpdateSuccess: bool, data: Option<AccountData>, coin: string): (r: bool)
    ensures r <==> lastUpdateSuccess && data.Some? && exists p :: p in data.value.positions && p.coin == coin
  {
    lastUpdateSuccess && GetPosition(data, coin).Some?
  }

  /** An order sensor is available when the last refresh succeeded and its order is still open. */
  function OrderAvailable(lastUpdateSuccess: bool, data: Option<AccountData>, orderId: int): (r: bool)
    ensures r <==> lastUpdateSuccess && data.Some? && exists o :: o in data.value.openOrders && o.orderId == orderId
  {
    lastUpdateSuccess && GetOrder(data, orderId).Some?
  }

  /** A vault sensor is available when the last refresh succeeded and its deposit is still listed. */
  function VaultAvailable(lastUpdateSuccess: bool, data: Option<AccountData>, vaultAddress: string): (r: bool)
    ensures r <==> lastUpdateSuccess && data.Some? && exists v :: v in data.value.vaults && v.vaultAddress == vaultAddress
  {
    lastUpdateSuccess && GetVault(data, vaultAddress).Some?
  }

  /** A position sensor shows the unrealized P&L of the first position with its coin. */
  function PositionValue(data: Option<AccountData>, coin: string): (r: Option<real>)
    ensures r.Some? <==> GetPosition(data, coin).Some?
    ensures r.Some? ==> r.value == GetPosition(data, coin).value.unrealizedPnl
    ensures r.Some? ==> exists i :: (0 <= i < |data.value.positions| && data.value.positions[i].coin == coin &&
      r.value == data.value.positions[i].unrealizedPnl && forall j :: 0 <= j < i ==> data.value.positions[j].coin != coin)
  {
    match GetPosition(data, coin)
    case None => None
    case Some(p) => Some(p.unrealizedPnl)
  }

  /** A vault sensor shows the equity of the first deposit with its address. */
  function VaultValue(data: Option<AccountData>, vaultAddress: string): (r: Option<real>)
    ensures r.Some? <==> GetVault(data, vaultAddress).Some?
    ensures r.Some? ==> r.value == GetVault(data, vaultAddress).value.equity
    ensures r.Some? ==> exists i :: (0 <= i < |data.value.vaults| && data.value.vaults[i].vaultAddress == vaultAddress &&
      r.value == data.value.vaults[i].equity && forall j :: 0 <= j < i ==> data.value.vaults[j].vaultAddress != vaultAddress)
  {
    match GetVault(data, vaultAddress)
    case None => None
    case Some(v) => Some(v.equity)
  }

  /** An order sensor shows the notional of the first order with its id: price times size. */
  function OrderValue(data: Option<AccountData>, orderId: int): (r: Option<real>)
    ensures r.Some? <==> GetOrder(data, orderId).Some?
    ensures r.Some? ==> r.value == GetOrder(data, orderId).value.price * GetOrder(data, orderId).value.size
    ensures r.Some? ==> exists i :: (0 <= i < |data.value.openOrders| && data.value.openOrders[i].orderId == orderId &&
      r.value == data.value.openOrders[i].price * data.value.openOrders[i].size &&
      forall j :: 0 <= j < i ==> data.value.openOrders[j].orderId != orderId)
  {
    match GetOrder(data, orderId)
    case None => None
    case Some(o) => Some(o.price * o.size)
  }

  /** Funding is paid hourly, so a day's estimate is 24 payments at the current rate. */
  const FundingPaymentsPerDay: real := 24.0

  function DailyEstimate(fundingRate: real, positionValue: real): (r: real)
    ensures fundingRate == 0.0 || positionValue == 0.0 ==> r == 0.0
    ensures fundingRate * positionValue > 0.0 ==> r > 0.0
    ensures fundingRate * positionValue < 0.0 ==> r < 0.0
  {
    fundingRate * positionValue * FundingPaymentsPerDay
  }

  /**
   * The position's estimated daily funding attribute: present only when the
   * record has a non-empty per-coin breakdown holding the position's coin.
   */
  function EstimatedDailyFunding(data: Option<AccountData>, position: Position): (r: Option<real>)
    ensures r.Some? <==> data.Some? && position.coin in data.value.fundingByCoin
  {
    if data.Some? && data.value.fundingByCoin != map[] && position.coin in data.value.fundingByCoin then
      Some(DailyEstimate(data.value.fundingByCoin[position.coin].fundingRate, position.positionValue))
    else None
  }

  /**
   * On a record whose per-coin breakdown was built from `events` (as the
   * normaliser builds it), the estimate exists exactly for coins with some
   * funding event, and it uses the rate of the coin's latest event: the first
   * of strictly greatest time above 0, else the coin's first event.
   */
  lemma EstimateUsesLatestRate(events: seq<RawFunding>, cutoff24h: int, d: AccountData, position: Position)
    requires d.fundingByCoin == ByCoin(events, cutoff24h)
    ensures var est := EstimatedDailyFunding(Some(d), position);
      est.Some? <==> position.coin in CoinSet(events)
    ensures var est := EstimatedDailyFunding(Some(d), position);
      var es := EventsOf(events, position.coin);
      est.Some? ==>
        |es| > 0 &&
        (!AnyPositiveTime(es) ==> est.value == DailyEstimate(Rate(es[0]), position.positionValue)) &&
        (AnyPositiveTime(es) ==>
          exists k :: FirstLatest(es, k) && est.value == DailyEstimate(Rate(es[k]), position.positionValue))
  {
    ByCoinPerCoin(events, cutoff24h);
    if position.coin in CoinSet(events) {
      var es := EventsOf(events, position.coin);
      var summary := CoinSummary(es, cutoff24h);
      assert d.fundingByCoin[position.coin] == summary;
      assert d.fundingByCoin != map[] by { assert position.coin in d.fundingByCoin; }
      CoinSummaryRate(es, cutoff24h);
      if AnyPositiveTime(es) {
        var k :| FirstLatest(es, k) && summary.fundingRate == Rate(es[k]);
        assert EstimatedDailyFunding(Some(d), position).value == DailyEstimate(Rate(es[k]), position.positionValue);
      }
    }
  }

  /** Two positions of one coin: the lookup, the value and the estimate all use the first. */
  lemma FirstPositionWinsExample(d: AccountData, p: Position, q: Position)
    requires p.coin == q.coin && d.positions == [p, q]
    ensures GetPosition(Some(d), p.coin) == Some(p)
    ensures PositionValue(Some(d), q.coin) == Some(p.unrealizedPnl)
  {
  }
}
