/** `getPriceState` of src/index.ts: where a price lies relative to a threshold. */
module Classifier {
  import opened Models

  /**
   * Classifies `price` against `threshold`. The comparison is exact: only a price
   * equal to the threshold is "at" it.
   */
  function Classify(threshold: real, price: real): (s: PriceState)
    ensures s == BelowThreshold <==> price < threshold
    ensures s == AtThreshold <==> price == threshold
    ensures s == AboveThreshold <==> price > threshold
    ensures s != Unknown
  {
    if price < threshold then BelowThreshold
    else if price == threshold then AtThreshold
    else AboveThreshold
  }

  /** The position of a classified state on the price axis. */
  function Band(s: PriceState): nat
    requires s != Unknown
  {
    match s
    case BelowThreshold => 0
    case AtThreshold => 1
    case AboveThreshold => 2
  }

  /** A higher price never lands in a lower band. */
  lemma ClassifyMonotone(threshold: real, p: real, q: real)
    requires p <= q
    ensures Band(Classify(threshold, p)) <= Band(Classify(threshold, q))
  {
  }
}
