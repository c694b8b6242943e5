/**
 * The "of interest" test of `process_data` (pump_fun_scraper.py:226-230):
 * three inclusive lower bounds joined by Python's short-circuit `and`.
 * A comparison whose left side is not a number raises TypeError in Python;
 * the model returns None for it, and the caller turns it into the outcome
 * of the catch-all handler at :273.
 */
module Filter {
  import opened Wrappers
  import opened Config
  import opened Record

  /** Python's `cell >= bound` on a JSON value: None when it raises TypeError. */
  function AtLeast(c: Cell, bound: real): Option<bool> {
    match c
    case Num(x) => Some(x >= bound)
    case _ => None
  }

  /** The three thresholds, on numbers. */
  predicate MeetsThresholds(initialBuy: real, solAmount: real, marketCapSol: real) {
    initialBuy >= MinInitialBuy && solAmount >= MinSolAmount && marketCapSol >= MinMarketCap
  }

  /**
   * The condition at :226-230, evaluated left to right: a false comparison
   * stops the evaluation, so a later non-numeric column cannot raise.
   */
  function OfInterest(row: Row): (r: Option<bool>)
    ensures r == Some(true) <==>
      row.initialBuy.Num? && row.solAmount.Num? && row.marketCapSol.Num? &&
      MeetsThresholds(row.initialBuy.x, row.solAmount.x, row.marketCapSol.x)
    ensures r == None <==>
      !row.initialBuy.Num? ||
      (row.initialBuy.x >= MinInitialBuy &&
        (!row.solAmount.Num? || (row.solAmount.x >= MinSolAmount && !row.marketCapSol.Num?)))
  {
    match AtLeast(row.initialBuy, MinInitialBuy)
    case None => None
    case Some(false) => Some(false)
    case Some(true) =>
      match AtLeast(row.solAmount, MinSolAmount)
      case None => None
      case Some(false) => Some(false)
      case Some(true) => AtLeast(row.marketCapSol, MinMarketCap)
  }

  /** On a row whose three compared columns are numbers the test never raises. */
  lemma NumericRowNeverRaises(row: Row)
    requires row.initialBuy.Num? && row.solAmount.Num? && row.marketCapSol.Num?
    ensures OfInterest(row) == Some(MeetsThresholds(row.initialBuy.x, row.solAmount.x, row.marketCapSol.x))
  {
  }

  /** The bounds are inclusive: 1000 passes and 999 does not, and likewise for the other two. */
  lemma BoundsAreInclusive()
    ensures MeetsThresholds(1000.0, 0.01, 30.0)
    ensures !MeetsThresholds(999.0, 0.01, 30.0)
    ensures !MeetsThresholds(1000.0, 0.009, 30.0)
    ensures !MeetsThresholds(1000.0, 0.01, 29.0)
  {
  }

  /**
   * An event that carries a large initial buy and no amounts is never of
   * interest: the defaulted zeros fail the SOL-amount bound.
   */
  lemma InitialBuyAloneIsNotOfInterest(signature: Cell, initialBuy: real, twitter: Option<string>)
    ensures OfInterest(Normalize(map["signature" := signature, "initialBuy" := Num(initialBuy)], twitter)) == Some(false)
  {
  }
}
