/**
 * Windowed account P&L of the normaliser. For each cutoff the reference
 * value is the first history entry, in scan order, whose time meets the
 * cutoff; the all-time reference is the entry with the smallest time, where
 * an entry without a time compares as +infinity once it is the incumbent.
 */
module AccountHistory {
  import opened Wrappers
  import opened Seqs
  import opened Windows
  import opened RawData

  /** The portfolio carries `allTime.accountValueHistory` as a list. */
  predicate HasHistory(p: RawPortfolio)
  {
    p.PortfolioObject? && p.allTime.Some? && p.allTime.value.AllTimeObject? &&
    p.allTime.value.accountValueHistory.Some?
  }

  /** `portfolio_data["allTime"]["accountValueHistory"]`, defaulting to an empty list at each level. */
  function HistoryOf(p: RawPortfolio): (h: seq<RawHistoryEntry>)
    ensures HasHistory(p) ==> h == p.allTime.value.accountValueHistory.value
    ensures !HasHistory(p) ==> h == []
  {
    match p
    case PortfolioObject(Some(AllTimeObject(h))) => h.GetOr([])
    case _ => []
  }

  function EntryTime(e: RawHistoryEntry): int { e.time.GetOr(0) }
  function EntryValue(e: RawHistoryEntry): real { e.accountValue.GetOr(0.0) }

  /** Index of the first entry, in scan order, whose time meets the cutoff. */
  function ReferenceIndex(h: seq<RawHistoryEntry>, cutoff: int): Option<nat>
  {
    FirstIndex(h, (e: RawHistoryEntry) => EntryTime(e) >= cutoff)
  }

  function ReferenceValue(h: seq<RawHistoryEntry>, cutoff: int): Option<real>
  {
    match ReferenceIndex(h, cutoff)
    case None => None
    case Some(i) => Some(EntryValue(h[i]))
  }

  /** `current - reference` when a reference exists and is truthy (non-zero), otherwise 0. */
  function WindowPnl(current: real, reference: Option<real>): (r: real)
    ensures reference.Some? && reference.value != 0.0 ==> r == current - reference.value
    ensures reference.None? || reference.value == 0.0 ==> r == 0.0
  {
    if reference.Some? && reference.value != 0.0 then current - reference.value else 0.0
  }

  /** The incumbent's time as `oldest_value.get("time", float('inf'))` reads it. */
  datatype Bound = Finite(t: int) | Infinity

  function IncumbentBound(e: RawHistoryEntry): Bound
  {
    if e.time.Some? then Finite(e.time.value) else Infinity
  }

  predicate Below(t: int, b: Bound)
  {
    b.Infinity? || t < b.t
  }

  /** Index of the entry the all-time scan keeps: replaced whenever a later entry's time is below it. */
  function OldestIndex(h: seq<RawHistoryEntry>): (r: Option<nat>)
    ensures r.None? <==> h == []
    ensures r.Some? ==> r.value < |h|
  {
    if h == [] then None
    else
      var prev := OldestIndex(h[..|h| - 1]);
      if prev.None? || Below(EntryTime(h[|h| - 1]), IncumbentBound(h[prev.value])) then Some(|h| - 1)
      else prev
  }

  /**
   * `current - oldest["accountValue"]` against the kept entry; 0 for an empty
   * history, and 0 when the kept entry has no value.
   */
  function AllTimePnl(h: seq<RawHistoryEntry>, current: real): (r: real)
    ensures h == [] ==> r == 0.0
    ensures h != [] ==> OldestEntry(h).Some? && r == current - OldestEntry(h).value.accountValue.GetOr(current)
    ensures h != [] && OldestEntry(h).value.accountValue.None? ==> r == 0.0
  {
    match OldestIndex(h)
    case None => 0.0
    case Some(i) => current - h[i].accountValue.GetOr(current)
  }

  /**
   * The reference entries of nested windows are nested in scan order: the
   * wider window's reference is found no later than the narrower one's.
   */
  lemma {:induction false} ReferencesNested(h: seq<RawHistoryEntry>, lo: int, hi: int)
    requires lo <= hi
    ensures ReferenceIndex(h, hi).Some? ==>
      ReferenceIndex(h, lo).Some? && ReferenceIndex(h, lo).value <= ReferenceIndex(h, hi).value
  {
    var a, b := ReferenceIndex(h, lo), ReferenceIndex(h, hi);
    if b.Some? {
      assert EntryTime(h[b.value]) >= lo;
      assert a.Some?;
    }
  }

  /** On a history sorted by time, first-in-scan-order is the earliest entry inside the window. */
  lemma {:induction false} SortedHistoryReference(h: seq<RawHistoryEntry>, cutoff: int)
    requires forall i, j :: 0 <= i < j < |h| ==> EntryTime(h[i]) <= EntryTime(h[j])
    ensures ReferenceIndex(h, cutoff).Some? ==>
      forall j :: 0 <= j < |h| && EntryTime(h[j]) >= cutoff ==>
        EntryTime(h[ReferenceIndex(h, cutoff).value]) <= EntryTime(h[j])
  {
    var r := ReferenceIndex(h, cutoff);
    if r.Some? {
      forall j | 0 <= j < |h| && EntryTime(h[j]) >= cutoff
        ensures EntryTime(h[r.value]) <= EntryTime(h[j])
      {
        assert !(j < r.value);
      }
    }
  }

  /** On an unsorted history the reference is not the earliest entry in the window. */
  lemma ScanOrderDependence(now: int)
    ensures var h := [RawHistoryEntry(Some(now - 3_600_000), Some(10.0)),
                      RawHistoryEntry(Some(now - 82_800_000), Some(20.0))];
      ReferenceValue(h, Cutoff24h(now)) == Some(10.0) &&
      WindowPnl(25.0, ReferenceValue(h, Cutoff24h(now))) == 15.0
  {
    var h := [RawHistoryEntry(Some(now - 3_600_000), Some(10.0)),
              RawHistoryEntry(Some(now - 82_800_000), Some(20.0))];
    assert EntryTime(h[0]) >= Cutoff24h(now);
  }

  /**
   * When every entry carries a time, the all-time reference is the first
   * entry of smallest time.
   */
  lemma {:induction false} OldestIsFirstMinimum(h: seq<RawHistoryEntry>)
    requires forall i :: 0 <= i < |h| ==> h[i].time.Some?
    ensures OldestIndex(h).Some? ==>
      var k := OldestIndex(h).value;
      (forall j :: 0 <= j < |h| ==> EntryTime(h[k]) <= EntryTime(h[j])) &&
      (forall j :: 0 <= j < k ==> EntryTime(h[k]) < EntryTime(h[j]))
  {
    if h != [] {
      var init := h[..|h| - 1];
      OldestIsFirstMinimum(init);
      var prev := OldestIndex(init);
      if prev.Some? {
        var p := prev.value;
        assert init[p] == h[p];
        forall j | 0 <= j < |init| ensures init[j] == h[j] { }
      }
    }
  }

  /**
   * An entry without a time counts as time 0 when it is scanned but as
   * +infinity once kept, so with two entries the later one always wins.
   */
  lemma OldestDependsOnOrder()
    ensures var a := RawHistoryEntry(None, Some(100.0));
      var b := RawHistoryEntry(Some(5), Some(200.0));
      OldestIndex([a, b]) == Some(1) && OldestIndex([b, a]) == Some(1) &&
      AllTimePnl([a, b], 300.0) == 100.0 && AllTimePnl([b, a], 300.0) == 200.0
  {
    var a := RawHistoryEntry(None, Some(100.0));
    var b := RawHistoryEntry(Some(5), Some(200.0));
    assert [a, b][..1] == [a];
    assert [b, a][..1] == [b];
    assert [a][..0] == [] && [b][..0] == [];
  }

  function OldestEntry(h: seq<RawHistoryEntry>): Option<RawHistoryEntry>
  {
    match OldestIndex(h)
    case None => None
    case Some(i) => Some(h[i])
  }

  /** One scan step of a window: the reference found so far stays, else the new entry may become it. */
  lemma ReferenceValueStep(h: seq<RawHistoryEntry>, i: nat, cutoff: int)
    requires i < |h|
    ensures ReferenceValue(h[..i + 1], cutoff) ==
      if ReferenceValue(h[..i], cutoff).Some? then ReferenceValue(h[..i], cutoff)
      else if EntryTime(h[i]) >= cutoff then Some(EntryValue(h[i])) else None
  {
    assert h[..i + 1] == h[..i] + [h[i]];
    assert h[..i + 1][..i] == h[..i];
    FirstIndexSnoc(h[..i], h[i], (e: RawHistoryEntry) => EntryTime(e) >= cutoff);
  }

  /** One step of the all-time scan: the new entry replaces the incumbent when its time is below it. */
  lemma OldestEntryStep(h: seq<RawHistoryEntry>, i: nat)
    requires i < |h|
    ensures OldestEntry(h[..i + 1]) ==
      var prev := OldestEntry(h[..i]);
      if prev.None? || Below(EntryTime(h[i]), IncumbentBound(prev.value)) then Some(h[i]) else prev
  {
    assert h[..i + 1][..i] == h[..i];
  }

  /**
   * The history loop: records the first value meeting each cutoff, tracks
   * the oldest entry, then turns the references into P&L figures.
   */
  method AccountPnl(history: seq<RawHistoryEntry>, accountValue: real, now: int)
    returns (pnl24h: real, pnl7d: real, pnl30d: real, pnlAllTime: real)
    ensures pnl24h == WindowPnl(accountValue, ReferenceValue(history, Cutoff24h(now)))
    ensures pnl7d == WindowPnl(accountValue, ReferenceValue(history, Cutoff7d(now)))
    ensures pnl30d == WindowPnl(accountValue, ReferenceValue(history, Cutoff30d(now)))
    ensures pnlAllTime == AllTimePnl(history, accountValue)
  {
    var c24, c7, c30 := Cutoff24h(now), Cutoff7d(now), Cutoff30d(now);
    var value24: Option<real> := None;
    var value7: Option<real> := None;
    var value30: Option<real> := None;
    var oldest: Option<RawHistoryEntry> := None;
    var i := 0;
    while i < |history|
      invariant 0 <= i <= |history|
      invariant value24 == ReferenceValue(history[..i], c24)
      invariant value7 == ReferenceValue(history[..i], c7)
      invariant value30 == ReferenceValue(history[..i], c30)
      invariant oldest == OldestEntry(history[..i])
    {
      var entry := history[i];
      var timestamp := EntryTime(entry);
      var value := EntryValue(entry);
      ReferenceValueStep(history, i, c24);
      ReferenceValueStep(history, i, c7);
      ReferenceValueStep(history, i, c30);
      OldestEntryStep(history, i);
      if timestamp >= c24 && value24.None? {
        value24 := Some(value);
      }
      if timestamp >= c7 && value7.None? {
        value7 := Some(value);
      }
      if timestamp >= c30 && value30.None? {
        value30 := Some(value);
      }
      if oldest.None? || Below(timestamp, IncumbentBound(oldest.value)) {
        oldest := Some(entry);
      }
      i := i + 1;
    }
    assert history[..i] == history;
    pnl24h := if value24.Some? && value24.value != 0.0 then accountValue - value24.value else 0.0;
    pnl7d := if value7.Some? && value7.value != 0.0 then accountValue - value7.value else 0.0;
    pnl30d := if value30.Some? && value30.value != 0.0 then accountValue - value30.value else 0.0;
    pnlAllTime := if oldest.Some? then accountValue - oldest.value.accountValue.GetOr(accountValue) else 0.0;
  }
}
