/**
 * The scraper's configuration constants (pump_fun_scraper.py:25-44).
 * JSON numbers are modelled as reals, so the thresholds are reals too.
 */
module Config {
  /** MIN_INITIAL_BUY */
  const MinInitialBuy: real := 1000.0
  /** MIN_SOL_AMOUNT */
  const MinSolAmount: real := 0.01
  /** MIN_MARKET_CAP */
  const MinMarketCap: real := 30.0
  /** TWITTER_BLACKLIST: handles reported as fake, compared exactly and case-sensitively */
  const TwitterBlacklist: seq<string> := ["elonmusk", "nypost", "pumpdotfun"]
  /** MIN_SAFETY_SCORE: a risk score at or below it is reported as safe */
  const MinSafetyScore: real := 500.0
  /** The sentinel the row uses for an absent text field */
  const NotAvailable: string := "N/A"
}
