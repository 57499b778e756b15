/** The data shapes of src/models.ts. */
module Models {
  import opened Wrappers

  /** The four states a watched market can be in. */
  datatype PriceState = BelowThreshold | AtThreshold | AboveThreshold | Unknown

  /**
   * One entry of the `data` dictionary built by the `start` command.
   * `price` is `None` until the first trade arrives (the program stores NaN there).
   */
  datatype MarketRecord = MarketRecord(price: Option<real>, threshold: real, state: PriceState, notified: bool)

  /**
   * The `markets` object of the configuration: its keys in insertion order
   * (the order in which `for ... in` visits them) and the threshold of each key.
   */
  datatype Markets = Markets(order: seq<string>, thresholds: map<string, real>)

  /** The keys are listed once each, and exactly the keys that have a threshold are listed. */
  predicate WellFormed(m: Markets)
  {
    && (forall i, j :: 0 <= i < j < |m.order| ==> m.order[i] != m.order[j])
    && (forall n :: n in m.thresholds ==> n in m.order)
    && (forall n :: n in m.order ==> n in m.thresholds)
  }

  /** The persisted configuration: optional credentials, the optional sound mode, the markets. */
  datatype Config = Config(key: Option<string>, secret: Option<string>, gilfoyleMode: Option<bool>, markets: Markets)
}
