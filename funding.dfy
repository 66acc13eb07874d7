/**
 * Funding aggregation of the normaliser: USDC totals over the three windows
 * and a per-coin breakdown of the 24-hour total, the 24-hour event count and
 * the rate of the most recent event.
 */
module Funding {
  import opened Wrappers
  import opened Windows
  import opened RawData
  import opened AccountModel

  function FundingTime(e: RawFunding): int { e.time.GetOr(0) }
  function Usdc(e: RawFunding): real { e.usdc.GetOr(0.0) }
  function Rate(e: RawFunding): real { e.fundingRate.GetOr(0.0) }
  function CoinOf(e: RawFunding): string { e.coin.GetOr("") }

  /** The record a coin gets from its first event: no total, no count, that event's rate. */
  function NewCoinEntry(e: RawFunding): CoinFunding
  {
    CoinFunding(0.0, Rate(e), 0, None)
  }

  /** What one event does to its coin's record. */
  function CoinStep(entry: CoinFunding, e: RawFunding, cutoff24h: int): (r: CoinFunding)
    ensures FundingTime(e) >= cutoff24h ==> r.funding24h == entry.funding24h + Usdc(e) && r.count == entry.count + 1
    ensures FundingTime(e) < cutoff24h ==> r.funding24h == entry.funding24h && r.count == entry.count
    ensures r.latestTime.GetOr(0) >= entry.latestTime.GetOr(0)
    ensures r.latestTime.Some? <==> entry.latestTime.Some? || FundingTime(e) > 0
    ensures (entry.latestTime.None? || entry.latestTime.value > 0) ==> (r.latestTime.None? || r.latestTime.value > 0)
  {
    var counted :=
      if FundingTime(e) >= cutoff24h
      then entry.(funding24h := entry.funding24h + Usdc(e), count := entry.count + 1)
      else entry;
    if FundingTime(e) > counted.latestTime.GetOr(0)
    then counted.(fundingRate := Rate(e), latestTime := Some(FundingTime(e)))
    else counted
  }

  /** The per-coin map the funding loop builds. */
  function ByCoin(events: seq<RawFunding>, cutoff24h: int): map<string, CoinFunding>
  {
    if events == [] then map[]
    else
      var m := ByCoin(events[..|events| - 1], cutoff24h);
      var e := events[|events| - 1];
      var entry := if CoinOf(e) in m then m[CoinOf(e)] else NewCoinEntry(e);
      m[CoinOf(e) := CoinStep(entry, e, cutoff24h)]
  }

  /** The events of one coin, in input order. */
  function EventsOf(events: seq<RawFunding>, coin: string): seq<RawFunding>
  {
    if events == [] then []
    else
      var e := events[|events| - 1];
      EventsOf(events[..|events| - 1], coin) + (if CoinOf(e) == coin then [e] else [])
  }

  /** The record of a coin built from its own events alone. */
  function CoinSummary(es: seq<RawFunding>, cutoff24h: int): CoinFunding
    requires |es| > 0
  {
    if |es| == 1 then CoinStep(NewCoinEntry(es[0]), es[0], cutoff24h)
    else CoinStep(CoinSummary(es[..|es| - 1], cutoff24h), es[|es| - 1], cutoff24h)
  }

  /** The coins that occur among the events. */
  function CoinSet(events: seq<RawFunding>): set<string>
  {
    if events == [] then {} else CoinSet(events[..|events| - 1]) + {CoinOf(events[|events| - 1])}
  }

  lemma {:induction false} EventsOfNonEmpty(events: seq<RawFunding>, coin: string)
    ensures |EventsOf(events, coin)| > 0 <==> coin in CoinSet(events)
  {
    if events != [] {
      EventsOfNonEmpty(events[..|events| - 1], coin);
    }
  }

  /**
   * The map holds exactly the coins that occur, and each coin's record is
   * what that coin's own events make of it: events of other coins never
   * touch it.
   */
  lemma {:induction false} ByCoinPerCoin(events: seq<RawFunding>, cutoff24h: int)
    ensures ByCoin(events, cutoff24h).Keys == CoinSet(events)
    ensures forall c :: c in ByCoin(events, cutoff24h) ==>
      |EventsOf(events, c)| > 0 && ByCoin(events, cutoff24h)[c] == CoinSummary(EventsOf(events, c), cutoff24h)
  {
    if events != [] {
      var init := events[..|events| - 1];
      var e := events[|events| - 1];
      ByCoinPerCoin(init, cutoff24h);
      var m := ByCoin(init, cutoff24h);
      var m' := ByCoin(events, cutoff24h);
      forall c | c in m'
        ensures |EventsOf(events, c)| > 0 && m'[c] == CoinSummary(EventsOf(events, c), cutoff24h)
      {
        if c == CoinOf(e) {
          var es := EventsOf(init, c);
          assert EventsOf(events, c) == es + [e];
          if c !in m {
            EventsOfNonEmpty(init, c);
            assert es == [];
            assert es + [e] == [e];
          } else {
            assert (es + [e])[..|es|] == es;
          }
        } else {
          assert EventsOf(events, c) == EventsOf(init, c);
        }
      }
    }
  }

  lemma {:induction false} CoinSummaryTotals(es: seq<RawFunding>, cutoff24h: int)
    requires |es| > 0
    ensures CoinSummary(es, cutoff24h).funding24h == SumSince(es, FundingTime, Usdc, cutoff24h)
    ensures CoinSummary(es, cutoff24h).count == CountSince(es, FundingTime, cutoff24h)
  {
    if |es| == 1 {
      assert es[..0] == [];
    } else {
      CoinSummaryTotals(es[..|es| - 1], cutoff24h);
    }
  }

  /** Whether some event of the coin is timestamped after 0, the initial `latest_time`. */
  predicate AnyPositiveTime(es: seq<RawFunding>)
  {
    exists i :: 0 <= i < |es| && FundingTime(es[i]) > 0
  }

  /** `k` is the first index carrying the strictly greatest time of `es`. */
  predicate FirstLatest(es: seq<RawFunding>, k: int)
  {
    0 <= k < |es| &&
    (forall j :: 0 <= j < |es| ==> FundingTime(es[j]) <= FundingTime(es[k])) &&
    (forall j :: 0 <= j < k ==> FundingTime(es[j]) < FundingTime(es[k]))
  }

  /** An event replaces the coin's rate exactly when its time beats the recorded latest time (0 when none). */
  lemma CoinStepRate(entry: CoinFunding, e: RawFunding, cutoff24h: int)
    ensures var r := CoinStep(entry, e, cutoff24h);
      if FundingTime(e) > entry.latestTime.GetOr(0)
      then r.latestTime == Some(FundingTime(e)) && r.fundingRate == Rate(e)
      else r.latestTime == entry.latestTime && r.fundingRate == entry.fundingRate
  {
  }

  /**
   * What the record's rate and latest time say about the events seen so far:
   * the first event of strictly greatest time when that time exceeds 0, and
   * otherwise no latest time and the first event's rate.
   */
  ghost predicate RateReflects(es: seq<RawFunding>, s: CoinFunding)
    requires |es| > 0
  {
    (s.latestTime.Some? <==> AnyPositiveTime(es)) &&
    (!AnyPositiveTime(es) ==> s.fundingRate == Rate(es[0])) &&
    (AnyPositiveTime(es) ==>
      exists k :: FirstLatest(es, k) && s.latestTime == Some(FundingTime(es[k])) && s.fundingRate == Rate(es[k]))
  }

  lemma RateReflectsStep(init: seq<RawFunding>, p: CoinFunding, e: RawFunding, cutoff24h: int)
    requires |init| > 0 && RateReflects(init, p)
    ensures RateReflects(init + [e], CoinStep(p, e, cutoff24h))
  {
    var es := init + [e];
    var last := |init|;
    assert forall i :: 0 <= i < |init| ==> es[i] == init[i];
    assert es[last] == e;
    CoinStepRate(p, e, cutoff24h);
    if AnyPositiveTime(init) {
      var k :| FirstLatest(init, k) && p.latestTime == Some(FundingTime(init[k])) && p.fundingRate == Rate(init[k]);
      assert AnyPositiveTime(es) by { assert FundingTime(es[k]) > 0; }
      if FundingTime(e) > FundingTime(init[k]) {
        assert FirstLatest(es, last);
      } else {
        assert FirstLatest(es, k);
      }
    } else if FundingTime(e) > 0 {
      assert AnyPositiveTime(es) by { assert FundingTime(es[last]) > 0; }
      assert FirstLatest(es, last);
    } else {
      assert forall i :: 0 <= i < |es| ==> FundingTime(es[i]) <= 0;
    }
  }

  /**
   * A coin's rate is that of the first event with the strictly greatest time
   * when that time exceeds 0, and the first event's rate otherwise.
   */
  lemma {:induction false} CoinSummaryRate(es: seq<RawFunding>, cutoff24h: int)
    requires |es| > 0
    ensures CoinSummary(es, cutoff24h).latestTime.Some? <==> AnyPositiveTime(es)
    ensures !AnyPositiveTime(es) ==> CoinSummary(es, cutoff24h).fundingRate == Rate(es[0])
    ensures AnyPositiveTime(es) ==>
      exists k :: FirstLatest(es, k) &&
        CoinSummary(es, cutoff24h).latestTime == Some(FundingTime(es[k])) &&
        CoinSummary(es, cutoff24h).fundingRate == Rate(es[k])
  {
    if |es| == 1 {
      CoinStepRate(NewCoinEntry(es[0]), es[0], cutoff24h);
      if FundingTime(es[0]) > 0 {
        assert FirstLatest(es, 0);
      }
    } else {
      var init := es[..|es| - 1];
      CoinSummaryRate(init, cutoff24h);
      assert RateReflects(init, CoinSummary(init, cutoff24h));
      assert es == init + [es[|es| - 1]];
      RateReflectsStep(init, CoinSummary(init, cutoff24h), es[|es| - 1], cutoff24h);
      assert RateReflects(es, CoinSummary(es, cutoff24h));
    }
  }

  /** Totals over the three windows for events one hour, 25 hours and eight days old. */
  lemma FundingWindowsExample(now: int)
    ensures var es := [RawFunding(Some(now - 3_600_000), Some("BTC"), Some(5.0), None),
                       RawFunding(Some(now - 90_000_000), Some("BTC"), Some(7.0), None),
                       RawFunding(Some(now - 8 * DayMs), Some("ETH"), Some(3.0), None)];
      SumSince(es, FundingTime, Usdc, Cutoff24h(now)) == 5.0 &&
      SumSince(es, FundingTime, Usdc, Cutoff7d(now)) == 12.0 &&
      SumSince(es, FundingTime, Usdc, Cutoff30d(now)) == 15.0
  {
    var es := [RawFunding(Some(now - 3_600_000), Some("BTC"), Some(5.0), None),
               RawFunding(Some(now - 90_000_000), Some("BTC"), Some(7.0), None),
               RawFunding(Some(now - 8 * DayMs), Some("ETH"), Some(3.0), None)];
    var a, b, c := es[0], es[1], es[2];
    assert es[..2] == [a, b] && [a, b][..1] == [a] && [a][..0] == [];
    assert FundingTime(a) == now - 3_600_000 && Usdc(a) == 5.0;
    assert FundingTime(b) == now - 90_000_000 && Usdc(b) == 7.0;
    assert FundingTime(c) == now - 8 * DayMs && Usdc(c) == 3.0;
    assert SumSince([a], FundingTime, Usdc, Cutoff24h(now)) == 5.0;
    assert SumSince([a], FundingTime, Usdc, Cutoff7d(now)) == 5.0;
    assert SumSince([a], FundingTime, Usdc, Cutoff30d(now)) == 5.0;
    assert SumSince([a, b], FundingTime, Usdc, Cutoff24h(now)) == 5.0;
    assert SumSince([a, b], FundingTime, Usdc, Cutoff7d(now)) == 12.0;
    assert SumSince([a, b], FundingTime, Usdc, Cutoff30d(now)) == 12.0;
  }

  /**
   * The funding loop: adds each event's USDC to every window it falls in and
   * updates its coin's record in place.
   */
  method AggregateFunding(events: seq<RawFunding>, now: int)
    returns (funding24h: real, funding7d: real, funding30d: real, fundingByCoin: map<string, CoinFunding>)
    ensures funding24h == SumSince(events, FundingTime, Usdc, Cutoff24h(now))
    ensures funding7d == SumSince(events, FundingTime, Usdc, Cutoff7d(now))
    ensures funding30d == SumSince(events, FundingTime, Usdc, Cutoff30d(now))
    ensures fundingByCoin == ByCoin(events, Cutoff24h(now))
  {
    var c24, c7, c30 := Cutoff24h(now), Cutoff7d(now), Cutoff30d(now);
    funding24h, funding7d, funding30d := 0.0, 0.0, 0.0;
    fundingByCoin := map[];
    var i := 0;
    while i < |events|
      invariant 0 <= i <= |events|
      invariant funding24h == SumSince(events[..i], FundingTime, Usdc, c24)
      invariant funding7d == SumSince(events[..i], FundingTime, Usdc, c7)
      invariant funding30d == SumSince(events[..i], FundingTime, Usdc, c30)
      invariant fundingByCoin == ByCoin(events[..i], c24)
    {
      var e := events[i];
      assert events[..i + 1][..i] == events[..i];
      var timestamp := FundingTime(e);
      var coin := CoinOf(e);
      var usdc := Usdc(e);
      var rate := Rate(e);
      if timestamp >= c24 {
        funding24h := funding24h + usdc;
      }
      if timestamp >= c7 {
        funding7d := funding7d + usdc;
      }
      if timestamp >= c30 {
        funding30d := funding30d + usdc;
      }
      ghost var before := fundingByCoin;
      if coin !in fundingByCoin {
        fundingByCoin := fundingByCoin[coin := CoinFunding(0.0, rate, 0, None)];
      }
      ghost var start := fundingByCoin[coin];
      if timestamp >= c24 {
        var entry := fundingByCoin[coin];
        fundingByCoin := fundingByCoin[coin := entry.(funding24h := entry.funding24h + usdc, count := entry.count + 1)];
      }
      if timestamp > fundingByCoin[coin].latestTime.GetOr(0) {
        var entry := fundingByCoin[coin];
        fundingByCoin := fundingByCoin[coin := entry.(fundingRate := rate, latestTime := Some(timestamp))];
      }
      assert fundingByCoin == before[coin := CoinStep(start, e, c24)];
      i := i + 1;
    }
    assert events[..i] == events;
  }
}
