/**
 * Position derivation of the normaliser: one `Position` per raw asset
 * position whose signed size is not zero, in input order, and the account's
 * total unrealized P&L accumulated beside it.
 */
module Positions {
  import opened Wrappers
  import opened Text
  import opened RawData
  import opened AccountModel

  function RawOf(a: RawAssetPosition): RawPosition { a.position.GetOr(EmptyPosition) }

  /** `float(position.get("szi", 0))` */
  function SignedSize(a: RawAssetPosition): real { RawOf(a).szi.GetOr(0.0) }

  /**
   * "cross" when the leverage type is "cross" or missing, otherwise the
   * leverage value (default 1) followed by "x".
   */
  function LeverageString(l: Option<RawLeverage>): (s: string)
    ensures (s == "cross") <==> l.GetOr(RawLeverage(None, None)).kind.GetOr("cross") == "cross"
    ensures s != "cross" ==> |s| >= 2 && s[|s| - 1] == 'x'
    ensures s != "cross" ==> s[..|s| - 1] == IntToString(l.GetOr(RawLeverage(None, None)).value.GetOr(1))
  {
    var lev := l.GetOr(RawLeverage(None, None));
    if lev.kind.GetOr("cross") == "cross" then "cross"
    else
      var s := IntToString(lev.value.GetOr(1)) + "x";
      assert s[|s| - 1] == 'x' != "cross"[4];
      s
  }

  lemma LeverageExamples()
    ensures LeverageString(Some(RawLeverage(Some("cross"), Some(20)))) == "cross"
    ensures LeverageString(None) == "cross"
    ensures LeverageString(Some(RawLeverage(Some("isolated"), Some(5)))) == "5x"
    ensures LeverageString(Some(RawLeverage(Some("isolated"), None))) == "1x"
  {
    assert IntToString(5) == "5";
    assert IntToString(1) == "1";
  }

  /** `abs(position_value / size)`, and 0 instead of dividing by a zero size. */
  function MarkPrice(positionValue: real, size: real): (r: real)
    ensures r >= 0.0
    ensures size != 0.0 ==> r * Abs(size) == Abs(positionValue)
    ensures size == 0.0 ==> r == 0.0
  {
    if size != 0.0 then
      var q := positionValue / size;
      assert q * size == positionValue;
      Abs(q)
    else 0.0
  }

  lemma MarkPriceExamples()
    ensures MarkPrice(150.0, -10.0) == 15.0
    ensures MarkPrice(150.0, 0.0) == 0.0
  {
  }

  /** The derived position of a raw entry with a non-zero signed size. */
  function ParsePosition(a: RawAssetPosition): (r: Position)
    requires SignedSize(a) != 0.0
    ensures r.coin == RawOf(a).coin.GetOr("")
    ensures r.size == Abs(SignedSize(a)) && r.size > 0.0
    ensures (r.side == Long) <==> SignedSize(a) > 0.0
    ensures r.markPrice * r.size == Abs(r.positionValue)
    ensures r.returnOnEquity == 100.0 * RawOf(a).returnOnEquity.GetOr(0.0)
    ensures r.liquidationPrice == RawOf(a).liquidationPx
    ensures r.positionValue == RawOf(a).positionValue.GetOr(0.0)
    ensures r.unrealizedPnl == RawOf(a).unrealizedPnl.GetOr(0.0)
    ensures r.entryPrice == RawOf(a).entryPx.GetOr(0.0)
    ensures r.marginUsed == RawOf(a).marginUsed.GetOr(0.0)
    ensures r.leverage == LeverageString(RawOf(a).leverage)
  {
    var p := RawOf(a);
    var size := SignedSize(a);
    var positionValue := p.positionValue.GetOr(0.0);
    Position(
      coin := p.coin.GetOr(""),
      size := Abs(size),
      side := if size > 0.0 then Long else Short,
      entryPrice := p.entryPx.GetOr(0.0),
      markPrice := MarkPrice(positionValue, size),
      liquidationPrice := p.liquidationPx,
      leverage := LeverageString(p.leverage),
      unrealizedPnl := p.unrealizedPnl.GetOr(0.0),
      marginUsed := p.marginUsed.GetOr(0.0),
      returnOnEquity := p.returnOnEquity.GetOr(0.0) * 100.0,
      positionValue := positionValue)
  }

  /** The positions list the loop builds: zero-size entries are skipped. */
  function ParsedPositions(raw: seq<RawAssetPosition>): seq<Position>
  {
    if raw == [] then []
    else
      var last := raw[|raw| - 1];
      var prev := ParsedPositions(raw[..|raw| - 1]);
      if SignedSize(last) == 0.0 then prev else prev + [ParsePosition(last)]
  }

  function SumUnrealizedPnl(ps: seq<Position>): real
  {
    if ps == [] then 0.0 else SumUnrealizedPnl(ps[..|ps| - 1]) + ps[|ps| - 1].unrealizedPnl
  }

  /**
   * Every emitted position comes from a raw entry of non-zero size, and every
   * raw entry of non-zero size is emitted.
   */
  lemma {:induction false} ParsedPositionsExact(raw: seq<RawAssetPosition>)
    ensures forall i :: 0 <= i < |ParsedPositions(raw)| ==>
      ParsedPositions(raw)[i].size > 0.0 &&
      exists j :: 0 <= j < |raw| && SignedSize(raw[j]) != 0.0 && ParsedPositions(raw)[i] == ParsePosition(raw[j])
    ensures forall j :: 0 <= j < |raw| && SignedSize(raw[j]) != 0.0 ==> ParsePosition(raw[j]) in ParsedPositions(raw)
  {
    if raw != [] {
      var init := raw[..|raw| - 1];
      ParsedPositionsExact(init);
      var prev := ParsedPositions(init);
      var out := ParsedPositions(raw);
      forall i | 0 <= i < |out|
        ensures out[i].size > 0.0
        ensures exists j :: 0 <= j < |raw| && SignedSize(raw[j]) != 0.0 && out[i] == ParsePosition(raw[j])
      {
        if i < |prev| {
          assert out[i] == prev[i];
          var j :| 0 <= j < |init| && SignedSize(init[j]) != 0.0 && prev[i] == ParsePosition(init[j]);
          assert init[j] == raw[j];
        } else {
          assert out[i] == ParsePosition(raw[|raw| - 1]);
        }
      }
      forall j | 0 <= j < |raw| && SignedSize(raw[j]) != 0.0 ensures ParsePosition(raw[j]) in out {
        if j < |init| {
          assert init[j] == raw[j];
          assert ParsePosition(raw[j]) in prev;
        }
      }
    }
  }

  /**
   * The positions loop: appends each non-zero position and adds its
   * unrealized P&L to the running total.
   */
  method ParsePositions(assetPositions: seq<RawAssetPosition>) returns (positions: seq<Position>, totalUnrealizedPnl: real)
    ensures positions == ParsedPositions(assetPositions)
    ensures totalUnrealizedPnl == SumUnrealizedPnl(positions)
  {
    positions := [];
    totalUnrealizedPnl := 0.0;
    var i := 0;
    while i < |assetPositions|
      invariant 0 <= i <= |assetPositions|
      invariant positions == ParsedPositions(assetPositions[..i])
      invariant totalUnrealizedPnl == SumUnrealizedPnl(positions)
    {
      var a := assetPositions[i];
      assert assetPositions[..i + 1][..i] == assetPositions[..i];
      if SignedSize(a) != 0.0 {
        var p := ParsePosition(a);
        assert (positions + [p])[..|positions|] == positions;
        positions := positions + [p];
        totalUnrealizedPnl := totalUnrealizedPnl + p.unrealizedPnl;
      }
      i := i + 1;
    }
    assert assetPositions[..i] == assetPositions;
  }
}
