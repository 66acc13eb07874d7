/** Open-order and referral mapping of the normaliser. */
module Orders {
  import opened Wrappers
  import opened RawData
  import opened AccountModel

  /** `float(trigger_px) if trigger_px else None`: a missing or zero trigger price is no trigger. */
  function TriggerPrice(triggerPx: Option<real>): (r: Option<real>)
    ensures r.Some? <==> triggerPx.Some? && triggerPx.value != 0.0
    ensures r.Some? ==> r == triggerPx
  {
    if triggerPx.Some? && triggerPx.value != 0.0 then triggerPx else None
  }

  /** Filled is never reported upstream, so it is 0 and the whole size remains. */
  function ParseOrder(o: RawOrder): (r: OpenOrder)
    ensures r.filled == 0.0 && r.remaining == r.size
    ensures r.size == o.sz.GetOr(0.0) && r.price == o.limitPx.GetOr(0.0)
    ensures r.orderId == o.oid.GetOr(0)
    ensures r.coin == o.coin.GetOr("") && r.side == o.side.GetOr("")
    ensures r.reduceOnly == o.reduceOnly.GetOr(false)
    ensures r.orderType == o.orderType.GetOr("limit")
    ensures r.triggerPrice == TriggerPrice(o.triggerPx)
  {
    var sz := o.sz.GetOr(0.0);
    OpenOrder(
      coin := o.coin.GetOr(""),
      side := o.side.GetOr(""),
      price := o.limitPx.GetOr(0.0),
      size := sz,
      orderId := o.oid.GetOr(0),
      orderType := o.orderType.GetOr("limit"),
      triggerPrice := TriggerPrice(o.triggerPx),
      reduceOnly := o.reduceOnly.GetOr(false),
      filled := 0.0,
      remaining := sz)
  }

  /** The open-orders loop: one parsed order per raw order, in input order. */
  method ParseOrders(openOrders: seq<RawOrder>) returns (parsed: seq<OpenOrder>)
    ensures |parsed| == |openOrders|
    ensures forall i :: 0 <= i < |openOrders| ==> parsed[i] == ParseOrder(openOrders[i])
  {
    parsed := [];
    var i := 0;
    while i < |openOrders|
      invariant 0 <= i <= |openOrders|
      invariant |parsed| == i
      invariant forall k :: 0 <= k < i ==> parsed[k] == ParseOrder(openOrders[k])
    {
      parsed := parsed + [ParseOrder(openOrders[i])];
      i := i + 1;
    }
  }

  function ParsedOrders(openOrders: seq<RawOrder>): seq<OpenOrder>
  {
    seq(|openOrders|, i requires 0 <= i < |openOrders| => ParseOrder(openOrders[i]))
  }

  datatype Referral = Referral(earnings: real, volume: real, info: Option<ReferralInfo>)

  /**
   * A falsy (empty) referral payload leaves earnings and volume at 0 and the
   * info empty; otherwise the referee count is the length of the referees list.
   */
  function ParseReferral(r: Option<RawReferral>): (out: Referral)
    ensures r.None? ==> out == Referral(0.0, 0.0, None)
    ensures r.Some? ==> out.info.Some? && out.info.value.refereeCount == |r.value.referees.GetOr([])|
    ensures r.Some? ==> out.info.value.referrer == r.value.referrer.GetOr("")
    ensures r.Some? ==> out.earnings == r.value.totalReferralUsdc.GetOr(0.0)
    ensures r.Some? ==> out.volume == r.value.totalReferralVolume.GetOr(0.0)
  {
    match r
    case None => Referral(0.0, 0.0, None)
    case Some(raw) =>
      Referral(
        raw.totalReferralUsdc.GetOr(0.0),
        raw.totalReferralVolume.GetOr(0.0),
        Some(ReferralInfo(raw.referrer.GetOr(""), |raw.referees.GetOr([])|)))
  }
}
