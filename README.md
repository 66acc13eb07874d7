# Hyperliquid account integration — a Dafny model

This project models the deterministic core of a Home Assistant integration
that shows a Hyperliquid trading account. The core has three parts.

- **The coordinator's normaliser and refresh cycle** (`coordinator.py`).
  One refresh fetches several raw payloads. A failure of the account-state
  or vault-equity query fails the cycle, while any other failed query leaves
  its section empty. The payloads are then folded into one flat account
  record:
  - positions with side, leverage string and mark price;
  - vault deposits with the ROI unit heuristic and leader equity;
  - account P&L over 24 hours, 7 days, 30 days and all time;
  - realized P&L, trade count and fees from fills, and the most recent fills;
  - funding totals and a per-coin funding breakdown;
  - open orders and referral figures.

  The coordinator keeps the latest record and its refresh interval.
- **The sensor platform's entity reconciler** (`sensor.py`). A listener
  keeps three tracking maps, keyed by position coin, vault address and order
  id. On each run it creates entities for new keys and asks the entity
  registry to remove the entities of keys that are gone. The dynamic sensors
  find their item in the latest record with a first-match scan, are
  available only while that scan succeeds, and show a value derived from
  the item.
- **The setup and options flow** (`config_flow.py`). A wallet address is
  stripped, lowercased and checked against `^0x[a-fA-F0-9]{40}$`, then
  stored under a short title. The options flow accepts a refresh interval
  in the closed range 10..300.

The accumulation loops of `_parse_data` (positions, vaults, account
history, fills, funding) are `method`s with `while` loops. Each is proved
equal to a left-fold function over the prefix it has scanned. The display
and open-order loops are proved equal to a pointwise projection. The
reconciler's loops over sets are proved against set-level postconditions.
The vault-enrichment loop and the sensors' first-match lookups, which
only compute a value, are functions. The properties the source promises
are lemmas about those functions. The
tracking maps are the fields of a class, `Reconciler.EntityTracking`, and
the coordinator's latest record and interval are the fields of
`Normalizer.Coordinator`. The modules are:

- `Wrappers`, `Seqs` and `Text`: Option/Result, first-match scans, Python
  slicing, and integer rendering.
- `Windows` and `Sorting`: the three inclusive cutoffs, and a stable
  descending sort.
- `RawData` and `AccountModel`: the raw payloads and the record they
  become.
- `Positions`, `Vaults`, `AccountHistory`, `Fills`, `Funding` and `Orders`:
  the parts of the normaliser.
- `Normalizer`: the fetch policy, the whole normaliser and the coordinator.
- `Reconciler` and `Sensors`: the sensor platform.
- `ConfigFlow` and `Constants`: the flows and their constants.

Amounts are exact `real`s and timestamps are `int` milliseconds. The
refresh time `now` is a parameter. The cutoffs are `now - 86_400_000`,
`now - 7 * 86_400_000` and `now - 30 * 86_400_000`, each inclusive.

The model follows the code, including these behaviours:

- A window's P&L stays 0 when the reference value is 0, because the
  code tests the value's truthiness (`WindowPnl`).
- The all-time reference depends on scan order. An entry without a time
  counts as time 0 when it is scanned but as +infinity once it is kept
  (`OldestDependsOnOrder`).
- A coin's funding rate is replaced only by an event whose time is strictly
  greater than the recorded latest time, which starts at 0. Ties keep the
  earlier event, and when no time exceeds 0 the first event's rate stays
  (`CoinSummaryRate`). The per-coin record gains a `latest_time` key only
  once some event time exceeds 0.
- For vaults and orders the "is new" test uses the keys tracked before the
  run. A key listed twice and new yields two entities
  (`DuplicateNewKeyExample`).
- The first listener run after setup creates nothing for keys of the first
  snapshot, because the initial tracking maps already hold them.

## Model

| member | source | states |
|---|---|---|
| Positions.LeverageString | custom_components/hyperliquid/coordinator.py:239-244 | the string is "cross" exactly when the leverage type is "cross" or missing; otherwise it is the leverage value (default 1) in decimal followed by "x" |
| Positions.LeverageExamples | custom_components/hyperliquid/coordinator.py:239-244 | cross → "cross", missing → "cross", isolated 5 → "5x", isolated without value → "1x" |
| Positions.MarkPrice | custom_components/hyperliquid/coordinator.py:247 | the mark price is non-negative, times the size's magnitude gives the value's magnitude, and is 0 for a zero size |
| Positions.MarkPriceExamples | custom_components/hyperliquid/coordinator.py:247 | value 150 with size -10 gives 15; size 0 gives 0 |
| Positions.ParsePosition | custom_components/hyperliquid/coordinator.py:219-265 | size is the magnitude of `szi` and positive; side is Long iff `szi > 0`; ROE is the raw fraction times 100; position value, unrealized P&L, entry price, margin used and liquidation price are the raw fields with their defaults; leverage is the leverage string; mark price times size is the value's magnitude |
| Positions.ParsedPositionsExact | custom_components/hyperliquid/coordinator.py:218-224 | every emitted position comes from a raw entry of non-zero size, and every such entry is emitted |
| Positions.ParsePositions | custom_components/hyperliquid/coordinator.py:214-267 | the loop's list is the fold that skips zero sizes, and the running total is the sum of the emitted positions' unrealized P&L |
| Vaults.RoiPercent | custom_components/hyperliquid/coordinator.py:300 | ROI is multiplied by 100 iff its magnitude is below 1, otherwise it passes through |
| Vaults.RoiExamples | custom_components/hyperliquid/coordinator.py:300 | 0.12 and 12 both read as 12; 0.99 reads as 99 but 1.01 as 1.01 |
| Vaults.LeaderEquity | custom_components/hyperliquid/coordinator.py:293 | 0 unless the maximum distributable is positive; then between 0 and that maximum for a fraction within 0..100 |
| Vaults.FallbackName | custom_components/hyperliquid/coordinator.py:275 | the first ten characters of the address (fewer if shorter) followed by "..." |
| Vaults.ParseVault | custom_components/hyperliquid/coordinator.py:274-309 | equity, P&L, APR, leader, closed flag and total value are the raw fields with their defaults; the name falls back to the short address; deposit value defaults to equity; leader fraction and commission are times 100; leader equity is total value times the raw fraction when the total is positive, else 0; ROI uses the heuristic |
| Vaults.ParsedVaultsAt | custom_components/hyperliquid/coordinator.py:273-309 | no vault is dropped or reordered: the i-th deposit derives from the i-th raw entry |
| Vaults.ParseVaults | custom_components/hyperliquid/coordinator.py:270-311 | the loop's list is the fold, and the running total is the sum of the deposits' equity |
| AccountHistory.WindowPnl | custom_components/hyperliquid/coordinator.py:356-361 | current minus reference when a non-zero reference exists, otherwise 0 |
| AccountHistory.OldestIndex | custom_components/hyperliquid/coordinator.py:350-352 | the all-time scan keeps an index exactly when the history is non-empty, and it is in range |
| AccountHistory.ReferencesNested | custom_components/hyperliquid/coordinator.py:343-348 | a wider window's reference entry is found no later in scan order than a narrower window's |
| AccountHistory.SortedHistoryReference | custom_components/hyperliquid/coordinator.py:339-348 | on a history sorted by time, the first match in scan order is the earliest entry inside the window |
| AccountHistory.ScanOrderDependence | custom_components/hyperliquid/coordinator.py:339-357 | on an unsorted history the reference is the first in scan order, not the earliest in time |
| AccountHistory.OldestIsFirstMinimum | custom_components/hyperliquid/coordinator.py:350-352 | when every entry has a time, the all-time reference has the smallest time and is the first entry with it |
| AccountHistory.OldestDependsOnOrder | custom_components/hyperliquid/coordinator.py:350-363 | an entry without a time loses to a later timed entry but replaces an earlier one, so all-time P&L depends on order |
| AccountHistory.ReferenceValueStep | custom_components/hyperliquid/coordinator.py:343-348 | one scan step keeps a reference already found, else takes the entry when it meets the cutoff |
| AccountHistory.OldestEntryStep | custom_components/hyperliquid/coordinator.py:350-352 | one scan step replaces the kept entry exactly when the new time is below the kept entry's bound |
| AccountHistory.HistoryOf | custom_components/hyperliquid/coordinator.py:315-320 | the history is the portfolio's `allTime.accountValueHistory` list when present, and empty when any level is missing |
| AccountHistory.AllTimePnl | custom_components/hyperliquid/coordinator.py:362-363 | 0 for an empty history; otherwise current minus the kept entry's value, which is 0 when that entry has no value |
| AccountHistory.AccountPnl | custom_components/hyperliquid/coordinator.py:315-363 | the loop's four P&L figures are the window P&L of each first-match reference and the all-time P&L of the kept entry |
| Windows.SplitWindow | custom_components/hyperliquid/coordinator.py:386-396 | a wider window's sum is the narrower window's sum plus the events between the two cutoffs |
| Windows.CountSinceMonotone | custom_components/hyperliquid/coordinator.py:386-387 | a wider window never counts fewer events, and no window counts more than all of them |
| Windows.CountSinceAllInside | custom_components/hyperliquid/coordinator.py:386-387 | when every event meets the cutoff, all are counted |
| Windows.SumSinceAllOutside | custom_components/hyperliquid/coordinator.py:430-435 | when every event is older than the cutoff, the window's sum and count are 0 |
| Sorting.SortDescCorrect | custom_components/hyperliquid/coordinator.py:399 | the sort is descending by key, a permutation of its input, and stable: each key's elements keep their input order |
| Sorting.InsertWithKey | custom_components/hyperliquid/coordinator.py:399 | inserting an element puts it in front of the elements that share its key |
| Fills.RecentTradesOf | custom_components/hyperliquid/coordinator.py:398-409 | the projection has the length of Python's `[:count]` slice and is ordered newest first |
| Fills.ToRecentTrade | custom_components/hyperliquid/coordinator.py:401-409 | a displayed trade carries the fill's coin and side (default ""), size and price (default 0), time, closed P&L and fee, each defaulting as the code reads them |
| Fills.RecentTradesAreMostRecent | custom_components/hyperliquid/coordinator.py:399-400 | the kept fills are a sub-multiset of the input, no dropped fill is newer than a kept one, and ties keep input order |
| Fills.TieOrderExample | custom_components/hyperliquid/coordinator.py:399 | two fills at the same time stay in the order the exchange returned them |
| Fills.AggregateFills | custom_components/hyperliquid/coordinator.py:366-396 | each window's realized P&L, the 24-hour trade count, and the 24-hour and 30-day fees are the sums and counts over the events meeting each inclusive cutoff |
| Fills.RecentTrades | custom_components/hyperliquid/coordinator.py:398-409 | the display loop produces exactly the projection |
| Funding.ByCoinPerCoin | custom_components/hyperliquid/coordinator.py:437-452 | the breakdown holds exactly the coins that occur, and each coin's record is what its own events make of it |
| Funding.CoinStep | custom_components/hyperliquid/coordinator.py:444-452 | an event inside the 24-hour window adds its USDC to `funding_24h` and 1 to `count`, one outside changes neither; the latest time never decreases, is recorded once any event time exceeds 0, and is always positive |
| Funding.CoinSummaryTotals | custom_components/hyperliquid/coordinator.py:445-447 | a coin's `funding_24h` and `count` cover only its events inside the 24-hour window |
| Funding.CoinStepRate | custom_components/hyperliquid/coordinator.py:449-452 | an event replaces the rate and latest time exactly when its time beats the recorded latest time (0 when none) |
| Funding.RateReflectsStep | custom_components/hyperliquid/coordinator.py:449-452 | one event preserves the invariant tying the record's rate to the first event of strictly greatest time |
| Funding.CoinSummaryRate | custom_components/hyperliquid/coordinator.py:438-452 | a coin's rate is that of the first event of strictly greatest time when that time exceeds 0, else its first event's rate |
| Funding.FundingWindowsExample | custom_components/hyperliquid/coordinator.py:429-435 | events 1 hour, 25 hours and 8 days old of 5, 7 and 3 give totals 5, 12 and 15 |
| Funding.AggregateFunding | custom_components/hyperliquid/coordinator.py:411-452 | the loop's totals are the window sums, and the map it updates in place is the per-coin fold |
| Orders.TriggerPrice | custom_components/hyperliquid/coordinator.py:473 | a missing or zero trigger price is no trigger; otherwise it is passed through |
| Orders.ParseOrder | custom_components/hyperliquid/coordinator.py:456-477 | `filled` is 0 and `remaining` equals size; order type defaults to "limit"; coin and side default to "", reduce-only to false, and the other fields default as the code reads them |
| Orders.ParseOrders | custom_components/hyperliquid/coordinator.py:454-477 | one parsed order per raw order, in input order |
| Orders.ParseReferral | custom_components/hyperliquid/coordinator.py:479-490 | an empty referral payload gives 0, 0 and no info; otherwise earnings, volume, the referee count and the referrer (default "") come from the payload |
| Normalizer.Normalize | custom_components/hyperliquid/coordinator.py:492-522 | the record's account unrealized P&L and total vault equity are the sums over its own lists; every position has positive size; counts and lengths are bounded by the input; the funding map is the per-coin fold |
| Normalizer.ParseData | custom_components/hyperliquid/coordinator.py:193-522 | the sequence of loops produces exactly the normalised record |
| Normalizer.EnrichVault | custom_components/hyperliquid/coordinator.py:113-126 | a vault with an address and a detail answer takes each detail field from the answer, with the code's defaults, and keeps its address, equity, P&L, ROI and deposit value; any other vault is unchanged |
| Normalizer.EnrichVaults | custom_components/hyperliquid/coordinator.py:113-126 | every vault is kept, in order, with its address and equity, and enriched from its own detail answer; with no detail answers nothing changes |
| Normalizer.FetchAll | custom_components/hyperliquid/coordinator.py:108-177 | the cycle fails iff the account-state or vault-equity query fails, and a vault-equity failure carries its own error; on success every section that loaded is passed through, the vaults are the enriched list, the trade-history count is the option or 20, and each other failed query leaves its section empty |
| Normalizer.UpdateData | custom_components/hyperliquid/coordinator.py:179-191 | a refresh fails iff a mandatory query fails, and the failure message is "Error communicating with Hyperliquid API: " followed by the failing query's error; a success is the normalised record of the fetched bundle |
| Normalizer.FundingFailureDegrades | custom_components/hyperliquid/coordinator.py:150-154 | a failed funding query leaves the cycle successful, with zero funding totals and an empty breakdown |
| Normalizer.Coordinator.constructor | custom_components/hyperliquid/coordinator.py:71-90 | the interval is the option's value, or 30 seconds when unset |
| Normalizer.Coordinator.UpdateOptions | custom_components/hyperliquid/coordinator.py:524-530 | only the interval changes, to the option's value or 30 |
| Normalizer.Coordinator.Refresh | custom_components/hyperliquid/coordinator.py:179-191 | a success replaces the latest record; a failure keeps the previous record and marks the refresh unsuccessful |
| Seqs.FirstIndex | custom_components/hyperliquid/sensor.py:623-627 | the result is the first index satisfying the test, or none when no element does |
| Sensors.GetPosition | custom_components/hyperliquid/sensor.py:618-627 | no data gives none; otherwise the first position with the coin, or none when no position has it |
| Sensors.GetOrder | custom_components/hyperliquid/sensor.py:702-711 | no data gives none; otherwise the first order with the id, or none when no order has it |
| Sensors.GetVault | custom_components/hyperliquid/sensor.py:786-795 | no data gives none; otherwise the first deposit with the address, or none when no deposit has it |
| Sensors.PositionAvailable | custom_components/hyperliquid/sensor.py:611-616 | available iff the last refresh succeeded and some position has the coin |
| Sensors.OrderAvailable | custom_components/hyperliquid/sensor.py:695-700 | available iff the last refresh succeeded and some order has the id |
| Sensors.VaultAvailable | custom_components/hyperliquid/sensor.py:779-784 | available iff the last refresh succeeded and some deposit has the address |
| Sensors.PositionValue | custom_components/hyperliquid/sensor.py:568-574 | a value exists iff the lookup succeeds, and it is the unrealized P&L of the first position with the coin |
| Sensors.OrderValue | custom_components/hyperliquid/sensor.py:665-673 | a value exists iff the lookup succeeds, and it is price times size of the first order with the id |
| Sensors.VaultValue | custom_components/hyperliquid/sensor.py:749-755 | a value exists iff the lookup succeeds, and it is the equity of the first deposit with the address |
| Sensors.EstimatedDailyFunding | custom_components/hyperliquid/sensor.py:597-607 | the estimate exists iff there is data and the coin is in the funding breakdown |
| Sensors.DailyEstimate | custom_components/hyperliquid/sensor.py:607 | the estimate is 0 when the rate or the position value is 0, and has the sign of their product |
| Sensors.EstimateUsesLatestRate | custom_components/hyperliquid/sensor.py:597-607 | on a normalised record the estimate exists iff the coin has funding events, and it is 24 times position value times the rate of the coin's latest event |
| Sensors.FirstPositionWinsExample | custom_components/hyperliquid/sensor.py:623-625 | with two positions of one coin, the lookup and the value use the first |
| Reconciler.RemovalIdsMatchCreation | custom_components/hyperliquid/sensor.py:373-374 | the id looked up for a gone coin, vault or order is the id its entity registered under |
| Reconciler.PositionUniqueId | custom_components/hyperliquid/sensor.py:373 | the id is the wallet, "_position_", then the coin |
| Reconciler.VaultUniqueId | custom_components/hyperliquid/sensor.py:401 | the id is the wallet, "_vault_", then the vault address |
| Reconciler.OrderUniqueId | custom_components/hyperliquid/sensor.py:429 | the id is the wallet, "_order_", then the order id in decimal |
| Reconciler.UniqueIdInjective | custom_components/hyperliquid/sensor.py:558 | two entities of one wallet share a unique id only when they are for the same key of the same kind |
| Reconciler.KindsHaveDistinctIds | custom_components/hyperliquid/sensor.py:558 | position, vault and order entities never share a unique id |
| Text.IntToStringInjective | custom_components/hyperliquid/sensor.py:655 | different order ids render as different strings |
| Reconciler.LastWith | custom_components/hyperliquid/sensor.py:388-397 | the item whose entity a repeated new key ends up with carries that key |
| Reconciler.NoNewEntitiesWhenKnown | custom_components/hyperliquid/sensor.py:388-389 | a run over items whose keys are all tracked creates nothing |
| Reconciler.NewEntitiesCover | custom_components/hyperliquid/sensor.py:388-397 | every new key gets the entity of its last item, and every created entity is for an item with a new key |
| Reconciler.DuplicateNewKeyExample | custom_components/hyperliquid/sensor.py:388-397 | a vault listed twice and new yields two entities |
| Reconciler.SensorsFor | custom_components/hyperliquid/sensor.py:362-369 | exactly one entity per new coin, each recorded under its coin and created once |
| Reconciler.AddNewCoins | custom_components/hyperliquid/sensor.py:361-369 | the map gains the new coins with their entities; tracked coins keep their entry |
| Reconciler.AddNewItems | custom_components/hyperliquid/sensor.py:387-397 | the created list is one entity per item with an untracked key; the map gains those keys; tracked keys keep their entry |
| Reconciler.RemoveGone | custom_components/hyperliquid/sensor.py:371-378 | every gone key leaves the map whether or not the registry knows it; the removed ids are the gone keys' ids the registry holds |
| Reconciler.ReconcileCoins | custom_components/hyperliquid/sensor.py:356-380 | the coin map ends keyed by exactly the current coins; kept coins keep their entry; new coins get one entity each; gone coins' registered ids are removed |
| Reconciler.ReconcileItems | custom_components/hyperliquid/sensor.py:382-408 | the vault or order map ends keyed by exactly the current keys; kept keys keep their entry; entities are created per item with a new key |
| Reconciler.ReconcileAll | custom_components/hyperliquid/sensor.py:353-436 | the three reconciliations of one run; nothing is created when every key is already tracked |
| Reconciler.InitialTracking | custom_components/hyperliquid/sensor.py:442-450 | the initial map holds every key of the first snapshot, each without an entity |
| Reconciler.EntityTracking.constructor | custom_components/hyperliquid/sensor.py:442-450 | with data, the three maps hold the snapshot's keys without entities; without data they are empty |
| Reconciler.EntityTracking.Update | custom_components/hyperliquid/sensor.py:347-439 | without data nothing changes; otherwise each map is reconciled, the created and removed sets are as above, and a run over known keys creates nothing |
| ConfigFlow.ValidateWalletAddress | custom_components/hyperliquid/config_flow.py:26-31 | true iff the string is "0x", 40 hex digits of either case, then the end or one final newline |
| ConfigFlow.TrailingNewline | custom_components/hyperliquid/config_flow.py:26-31 | a valid address plus a newline passes the pattern, but normalising it removes the newline |
| ConfigFlow.Strip | custom_components/hyperliquid/config_flow.py:54 | the result is a slice of the input with only whitespace cut at either end, and it has no whitespace at either end |
| ConfigFlow.Lower | custom_components/hyperliquid/config_flow.py:54 | same length, with each character lowered |
| ConfigFlow.NormalizeAddress | custom_components/hyperliquid/config_flow.py:54 | the normalised address is no longer than the input, has no whitespace at either end and no uppercase letter |
| ConfigFlow.NormalizeIdempotent | custom_components/hyperliquid/config_flow.py:54 | normalising a normalised address changes nothing |
| ConfigFlow.ValidNormalizedIsCanonical | custom_components/hyperliquid/config_flow.py:54-58 | a normalised address that passes is exactly "0x" and 40 lowercase hex digits |
| ConfigFlow.CanonicalIsValid | custom_components/hyperliquid/config_flow.py:54-58 | a canonical lowercase address is its own normal form and passes |
| ConfigFlow.Title | custom_components/hyperliquid/config_flow.py:74-77 | for any address the title is "Hyperliquid (", the first six characters (all if shorter), "...", the last four (all if shorter) and ")" |
| ConfigFlow.TitleOfAddress | custom_components/hyperliquid/config_flow.py:74-77 | for a stored address the title is 27 characters: "Hyperliquid (", the first 6, "...", the last 4, ")" |
| ConfigFlow.UserStep | custom_components/hyperliquid/config_flow.py:47-94 | no input shows the form; an invalid address gives "invalid_wallet_address"; a configured one aborts; a failed connection gives "cannot_connect"; otherwise the entry stores the normalised 42-character address with the short title and interval 30 |
| ConfigFlow.OptionsStep | custom_components/hyperliquid/config_flow.py:112-136 | an interval is saved iff it is within 10..300; the form defaults to the stored interval or 30 |

## Left out

- The network calls through the exchange SDK are not modelled. One cycle's
  query outcomes are an input, `FetchResults`, and a vault missing from its
  detail map is one whose detail query failed.
- Home Assistant's framework is not modelled: scheduling, executor jobs,
  listener dispatch, `async_add_entities`, and the registry's own deletion.
  The registry is the set of unique ids it knows. An entity is the key and
  display data it is created with.
- `datetime.now()` and its millisecond conversion are not modelled. `now`
  is an integer parameter.
- Floating point and `float(...)` parsing of numeric strings are not
  modelled. Amounts are exact reals that are already parsed, so the
  truthiness of a numeric string such as "0.0" does not arise.
- Exceptions raised inside the normaliser by malformed payloads (a wrong
  JSON type, an unparsable number) are not modelled. In the source they
  also become an `UpdateFailed`.
- Sensor metadata and the `extra_state_attributes` projections are not
  modelled: names, device info, units, precision, and the static account
  sensors. They are display data and field copies.
- ConfigFlow.UserStep: the connection test is a boolean parameter, and the
  voluptuous form schema is left out.
- ConfigFlow.OptionsStep: `vol.Coerce(int)` is left out. The submitted
  value is already an integer, and the framework's schema check is modelled
  as the range test.
- ConfigFlow.Lower: lowers ASCII letters only. No other character lowers
  to a hex digit, "0" or "x", so the validation verdict is the same.
- Reconciler.SensorsFor: creates position entities in no particular order,
  because the source iterates over a set. Its contract states which
  entities are created, not their order.
- Sensors.EstimatedDailyFunding: its own contract states only when the
  estimate exists. Its value is stated by `Sensors.EstimateUsesLatestRate`
  in terms of the funding events.
- `__init__.py` setup and unload are not modelled. Of `const.py`, only the
  values the core uses are modelled.
