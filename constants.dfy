/** Configuration constants of the integration. */
module Constants {
  /** Seconds between refreshes, and the range the options form accepts. */
  const DefaultUpdateInterval: int := 30
  const MinUpdateInterval: int := 10
  const MaxUpdateInterval: int := 300

  /** How many fills the recent-trades projection keeps by default. */
  const DefaultTradeHistoryCount: int := 20
}
