/**
 * Vault derivation of the normaliser: one `VaultDeposit` per vault-equity
 * entry, in input order, with the total vault equity accumulated beside it.
 */
module Vaults {
  import opened Wrappers
  import opened Seqs
  import opened RawData
  import opened AccountModel

  /**
   * The ROI unit heuristic: a raw value of magnitude below 1 is a fraction
   * and becomes a percentage; anything else is taken as a percentage already.
   */
  function RoiPercent(roi: real): (r: real)
    ensures Abs(roi) < 1.0 ==> r == roi * 100.0 && Abs(r) < 100.0
    ensures Abs(roi) >= 1.0 ==> r == roi
  {
    if Abs(roi) < 1.0 then roi * 100.0 else roi
  }

  /** The heuristic jumps at 1: 0.12 and 12 both read as 12%, 0.99 reads as 99% but 1.01 as 1.01%. */
  lemma RoiExamples()
    ensures RoiPercent(0.12) == 12.0
    ensures RoiPercent(12.0) == 12.0
    ensures RoiPercent(0.99) == 99.0
    ensures RoiPercent(1.01) == 1.01
  {
  }

  /** `max_distributable * (leader_fraction / 100)` when the vault holds something, else 0. */
  function LeaderEquity(maxDistributable: real, leaderFractionPercent: real): (r: real)
    ensures maxDistributable <= 0.0 ==> r == 0.0
    ensures maxDistributable > 0.0 && 0.0 <= leaderFractionPercent <= 100.0 ==> 0.0 <= r <= maxDistributable
  {
    if maxDistributable > 0.0 then
      var share := leaderFractionPercent / 100.0;
      assert 0.0 <= leaderFractionPercent <= 100.0 ==> 0.0 <= share <= 1.0;
      assert 0.0 <= share <= 1.0 ==> maxDistributable * share <= maxDistributable * 1.0;
      maxDistributable * share
    else 0.0
  }

  /** The name shown when the enrichment left no name: the first ten characters of the address and "...". */
  function FallbackName(address: string): (r: string)
    ensures |r| == Min(|address|, 10) + 3
    ensures r[..|r| - 3] == address[..|r| - 3] && r[|r| - 3..] == "..."
  {
    Take(address, 10) + "..."
  }

  function ParseVault(v: RawVault): (r: VaultDeposit)
    ensures r.vaultAddress == v.vaultAddress.GetOr("")
    ensures r.equity == v.equity.GetOr(0.0) && r.pnl == v.pnl.GetOr(0.0) && r.apr == v.apr.GetOr(0.0)
    ensures r.vaultTotalValue == v.maxDistributable.GetOr(0.0)
    ensures r.leaderAddress == v.leader.GetOr("") && r.isClosed == v.isClosed.GetOr(false)
    ensures v.vaultName.None? ==> r.vaultName == FallbackName(r.vaultAddress)
    ensures v.vaultName.Some? ==> r.vaultName == v.vaultName.value
    ensures r.depositValue == (if v.depositValue.Some? then v.depositValue.value else r.equity)
    ensures r.leaderFraction == 100.0 * v.leaderFraction.GetOr(0.0)
    ensures r.leaderCommission == 100.0 * v.leaderCommission.GetOr(0.0)
    ensures r.leaderEquity == (if r.vaultTotalValue > 0.0 then r.vaultTotalValue * v.leaderFraction.GetOr(0.0) else 0.0)
    ensures r.roi == RoiPercent(v.roi.GetOr(0.0))
  {
    var address := v.vaultAddress.GetOr("");
    var equity := v.equity.GetOr(0.0);
    var leaderFraction := v.leaderFraction.GetOr(0.0) * 100.0;
    var maxDistributable := v.maxDistributable.GetOr(0.0);
    VaultDeposit(
      vaultAddress := address,
      vaultName := v.vaultName.GetOr(FallbackName(address)),
      equity := equity,
      pnl := v.pnl.GetOr(0.0),
      roi := RoiPercent(v.roi.GetOr(0.0)),
      depositValue := v.depositValue.GetOr(equity),
      apr := v.apr.GetOr(0.0),
      leaderAddress := v.leader.GetOr(""),
      leaderFraction := leaderFraction,
      leaderEquity := LeaderEquity(maxDistributable, leaderFraction),
      leaderCommission := v.leaderCommission.GetOr(0.0) * 100.0,
      vaultTotalValue := maxDistributable,
      isClosed := v.isClosed.GetOr(false))
  }

  function ParsedVaults(raw: seq<RawVault>): seq<VaultDeposit>
  {
    if raw == [] then [] else ParsedVaults(raw[..|raw| - 1]) + [ParseVault(raw[|raw| - 1])]
  }

  function SumEquity(vs: seq<VaultDeposit>): real
  {
    if vs == [] then 0.0 else SumEquity(vs[..|vs| - 1]) + vs[|vs| - 1].equity
  }

  /** Vaults are never dropped or reordered: the i-th deposit derives from the i-th raw entry. */
  lemma {:induction false} ParsedVaultsAt(raw: seq<RawVault>)
    ensures |ParsedVaults(raw)| == |raw|
    ensures forall i :: 0 <= i < |raw| ==> ParsedVaults(raw)[i] == ParseVault(raw[i])
  {
    if raw != [] {
      var init := raw[..|raw| - 1];
      ParsedVaultsAt(init);
      forall i | 0 <= i < |init| ensures ParsedVaults(raw)[i] == ParseVault(raw[i]) {
        assert init[i] == raw[i];
      }
    }
  }

  /** The vaults loop: appends each derived vault and adds its equity to the running total. */
  method ParseVaults(vaultEquities: seq<RawVault>) returns (vaults: seq<VaultDeposit>, totalVaultEquity: real)
    ensures vaults == ParsedVaults(vaultEquities)
    ensures totalVaultEquity == SumEquity(vaults)
  {
    vaults := [];
    totalVaultEquity := 0.0;
    var i := 0;
    while i < |vaultEquities|
      invariant 0 <= i <= |vaultEquities|
      invariant vaults == ParsedVaults(vaultEquities[..i])
      invariant totalVaultEquity == SumEquity(vaults)
    {
      assert vaultEquities[..i + 1][..i] == vaultEquities[..i];
      var d := ParseVault(vaultEquities[i]);
      assert (vaults + [d])[..|vaults|] == vaults;
      vaults := vaults + [d];
      totalVaultEquity := totalVaultEquity + d.equity;
      i := i + 1;
    }
    assert vaultEquities[..i] == vaultEquities;
  }
}
