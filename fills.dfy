/**
 * Trade-fill aggregation of the normaliser: realized P&L over the three
 * windows, the 24-hour trade count, fees over 24 hours and 30 days, and the
 * most recent fills for display.
 */
module Fills {
  import opened Wrappers
  import opened Seqs
  import opened Windows
  import opened Sorting
  import opened RawData
  import opened AccountModel

  function FillTime(f: RawFill): int { f.time.GetOr(0) }
  function ClosedPnl(f: RawFill): real { f.closedPnl.GetOr(0.0) }
  function Fee(f: RawFill): real { f.fee.GetOr(0.0) }

  function ToRecentTrade(f: RawFill): (t: RecentTrade)
    ensures t.timestamp == FillTime(f) && t.closedPnl == ClosedPnl(f) && t.fee == Fee(f)
    ensures t.coin == f.coin.GetOr("") && t.side == f.side.GetOr("")
    ensures t.size == f.sz.GetOr(0.0) && t.price == f.px.GetOr(0.0)
  {
    RecentTrade(
      coin := f.coin.GetOr(""),
      side := f.side.GetOr(""),
      size := f.sz.GetOr(0.0),
      price := f.px.GetOr(0.0),
      closedPnl := ClosedPnl(f),
      fee := Fee(f),
      timestamp := FillTime(f))
  }

  /** The fills sorted newest first, ties kept in input order. */
  function ByRecency(fills: seq<RawFill>): seq<RawFill>
  {
    SortDesc(fills, FillTime)
  }

  /**
   * The display projection: the first `count` fills by recency, with
   * Python's slice semantics for the count.
   */
  function RecentTradesOf(fills: seq<RawFill>, count: int): (r: seq<RecentTrade>)
    ensures |r| == (if count >= 0 then Min(|fills|, count) else Max(0, |fills| + count))
    ensures forall i, j :: 0 <= i < j < |r| ==> r[i].timestamp >= r[j].timestamp
  {
    SortDescCorrect(fills, FillTime);
    var top := Take(ByRecency(fills), count);
    seq(|top|, i requires 0 <= i < |top| => ToRecentTrade(top[i]))
  }

  /**
   * The kept fills are a selection of the input, and none of the dropped
   * fills is more recent than any kept one; among fills of equal time the
   * input order is kept.
   */
  lemma RecentTradesAreMostRecent(fills: seq<RawFill>, count: int)
    ensures var sorted := ByRecency(fills);
      var top := Take(sorted, count);
      multiset(sorted) == multiset(fills) &&
      multiset(top) <= multiset(fills) &&
      (forall i, j :: 0 <= i < |top| <= j < |sorted| ==> FillTime(sorted[i]) >= FillTime(sorted[j])) &&
      (forall t :: WithKey(sorted, FillTime, t) == WithKey(fills, FillTime, t))
  {
    var sorted := ByRecency(fills);
    SortDescCorrect(fills, FillTime);
    var top := Take(sorted, count);
    assert sorted == top + sorted[|top|..];
    assert multiset(sorted) == multiset(top) + multiset(sorted[|top|..]);
  }

  /** Two fills at the same time are shown in the order the exchange returned them. */
  lemma TieOrderExample()
    ensures var a := RawFill(Some(7), Some("BTC"), None, None, None, None, None);
      var b := RawFill(Some(7), Some("ETH"), None, None, None, None, None);
      var c := RawFill(Some(9), Some("SOL"), None, None, None, None, None);
      ByRecency([a, b, c]) == [c, a, b]
  {
    var a := RawFill(Some(7), Some("BTC"), None, None, None, None, None);
    var b := RawFill(Some(7), Some("ETH"), None, None, None, None, None);
    var c := RawFill(Some(9), Some("SOL"), None, None, None, None, None);
    assert [a, b, c][1..] == [b, c];
    assert [b, c][1..] == [c];
    assert [c][1..] == [];
    assert FillTime(a) == 7 && FillTime(b) == 7 && FillTime(c) == 9;
    assert SortDesc([c], FillTime) == [c];
    assert Insert(b, [c], FillTime) == [c] + Insert(b, [], FillTime) == [c, b];
    assert SortDesc([b, c], FillTime) == [c, b];
    assert [c, b][1..] == [b];
    assert Insert(a, [b], FillTime) == [a, b];
    assert Insert(a, [c, b], FillTime) == [c] + Insert(a, [b], FillTime);
  }

  /** The fills loop: each fill is added to every window whose inclusive cutoff it meets. */
  method AggregateFills(fills: seq<RawFill>, now: int)
    returns (realizedPnl24h: real, realizedPnl7d: real, realizedPnl30d: real, trades24h: nat,
             feesPaid24h: real, feesPaid30d: real)
    ensures realizedPnl24h == SumSince(fills, FillTime, ClosedPnl, Cutoff24h(now))
    ensures realizedPnl7d == SumSince(fills, FillTime, ClosedPnl, Cutoff7d(now))
    ensures realizedPnl30d == SumSince(fills, FillTime, ClosedPnl, Cutoff30d(now))
    ensures trades24h == CountSince(fills, FillTime, Cutoff24h(now))
    ensures feesPaid24h == SumSince(fills, FillTime, Fee, Cutoff24h(now))
    ensures feesPaid30d == SumSince(fills, FillTime, Fee, Cutoff30d(now))
  {
    var c24, c7, c30 := Cutoff24h(now), Cutoff7d(now), Cutoff30d(now);
    realizedPnl24h, realizedPnl7d, realizedPnl30d := 0.0, 0.0, 0.0;
    trades24h := 0;
    feesPaid24h, feesPaid30d := 0.0, 0.0;
    var i := 0;
    while i < |fills|
      invariant 0 <= i <= |fills|
      invariant realizedPnl24h == SumSince(fills[..i], FillTime, ClosedPnl, c24)
      invariant realizedPnl7d == SumSince(fills[..i], FillTime, ClosedPnl, c7)
      invariant realizedPnl30d == SumSince(fills[..i], FillTime, ClosedPnl, c30)
      invariant trades24h == CountSince(fills[..i], FillTime, c24)
      invariant feesPaid24h == SumSince(fills[..i], FillTime, Fee, c24)
      invariant feesPaid30d == SumSince(fills[..i], FillTime, Fee, c30)
    {
      var fill := fills[i];
      assert fills[..i + 1][..i] == fills[..i];
      var timestamp := FillTime(fill);
      var closedPnl := ClosedPnl(fill);
      var fee := Fee(fill);
      if timestamp >= c24 {
        trades24h := trades24h + 1;
        realizedPnl24h := realizedPnl24h + closedPnl;
        feesPaid24h := feesPaid24h + fee;
      }
      if timestamp >= c7 {
        realizedPnl7d := realizedPnl7d + closedPnl;
      }
      if timestamp >= c30 {
        realizedPnl30d := realizedPnl30d + closedPnl;
        feesPaid30d := feesPaid30d + fee;
      }
      i := i + 1;
    }
    assert fills[..i] == fills;
  }

  /** The display loop: converts the first `count` fills by recency, in that order. */
  method RecentTrades(fills: seq<RawFill>, count: int) returns (trades: seq<RecentTrade>)
    ensures trades == RecentTradesOf(fills, count)
  {
    var sortedFills := ByRecency(fills);
    var top := Take(sortedFills, count);
    trades := [];
    var i := 0;
    while i < |top|
      invariant 0 <= i <= |top|
      invariant |trades| == i
      invariant forall k :: 0 <= k < i ==> trades[k] == ToRecentTrade(top[k])
    {
      trades := trades + [ToRecentTrade(top[i])];
      i := i + 1;
    }
  }
}
