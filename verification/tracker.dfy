/**
 * What one trade does to a market's record in the `start` command of src/index.ts,
 * as a function of the record and the traded price.
 */
module Tracker {
  import opened Wrappers
  import opened Models
  import opened Classifier

  /** The record after the trade, and whether the trade asked for a notification. */
  datatype StepOutcome = StepOutcome(record: MarketRecord, due: bool)

  /** The record as it is at session start. */
  function Initial(threshold: real): MarketRecord
  {
    MarketRecord(None, threshold, Unknown, false)
  }

  /**
   * The shape every record keeps between trades: an untouched record has no price and
   * was never notified; a traded one is classified by its latest price and notified.
   */
  predicate Settled(r: MarketRecord)
  {
    if r.state == Unknown then r.price == None && !r.notified
    else r.price.Some? && r.state == Classify(r.threshold, r.price.value) && r.notified
  }

  /**
   * One trade. The first trade classifies the price and leaves `notified` alone; a later
   * one clears `notified` only when the state changes. A notification is due when
   * `notified` is false after that, and `notified` is set before the sound is played.
   */
  function Step(r: MarketRecord, price: real): (o: StepOutcome)
    ensures o.record.price == Some(price) && o.record.threshold == r.threshold
    ensures o.record.state == Classify(r.threshold, price) && o.record.state != Unknown
    ensures o.record.notified
    ensures r.state == Unknown ==> (o.due <==> !r.notified)
    ensures r.state != Unknown ==> (o.due <==> !r.notified || r.state != o.record.state)
    ensures Settled(r) ==> Settled(o.record) && (o.due <==> r.state != o.record.state)
  {
    var newState := Classify(r.threshold, price);
    var updated :=
      if r.state == Unknown then r.(price := Some(price), state := newState)
      else if newState != r.state then r.(price := Some(price), state := newState, notified := false)
      else r.(price := Some(price));
    StepOutcome(updated.(notified := true), !updated.notified)
  }

  /** The notification decisions for a run of trades on one market. */
  function Dues(r: MarketRecord, prices: seq<real>): (ds: seq<bool>)
    ensures |ds| == |prices|
    decreases |prices|
  {
    if prices == [] then []
    else
      var o := Step(r, prices[0]);
      [o.due] + Dues(o.record, prices[1..])
  }

  /** The record after a run of trades on one market. */
  function After(r: MarketRecord, prices: seq<real>): MarketRecord
    decreases |prices|
  {
    if prices == [] then r else After(Step(r, prices[0]).record, prices[1..])
  }

  /**
   * Deduplication: from a settled record, a trade asks for a notification exactly when
   * its price falls in another state than the one before it (for the first trade, the
   * record's state, which is Unknown on a fresh market).
   */
  lemma {:induction false} DueExactlyOnStateChange(r: MarketRecord, prices: seq<real>)
    requires Settled(r)
    ensures forall i :: 0 <= i < |prices| ==>
      (Dues(r, prices)[i] <==>
        Classify(r.threshold, prices[i]) != (if i == 0 then r.state else Classify(r.threshold, prices[i - 1])))
    decreases |prices|
  {
    if prices != [] {
      var o := Step(r, prices[0]);
      DueExactlyOnStateChange(o.record, prices[1..]);
      var rest := prices[1..];
      assert Dues(r, prices) == [o.due] + Dues(o.record, rest);
      forall i | 1 <= i < |prices|
        ensures Dues(r, prices)[i] <==> Classify(r.threshold, prices[i]) != Classify(r.threshold, prices[i - 1])
      {
        assert Dues(r, prices)[i] == Dues(o.record, rest)[i - 1];
        assert rest[i - 1] == prices[i];
        assert i - 1 > 0 ==> rest[i - 2] == prices[i - 1];
      }
    }
  }

  /** After a non-empty run, the record holds the last price, classified, and is notified. */
  lemma {:induction false} AfterRun(r: MarketRecord, prices: seq<real>)
    requires |prices| > 0
    ensures After(r, prices).price == Some(prices[|prices| - 1])
    ensures After(r, prices).threshold == r.threshold
    ensures After(r, prices).state == Classify(r.threshold, prices[|prices| - 1])
    ensures After(r, prices).notified
    decreases |prices|
  {
    if |prices| > 1 {
      AfterRun(Step(r, prices[0]).record, prices[1..]);
    }
  }
}
