/**
 * The `start` command of src/index.ts: the `data` dictionary of market records, the
 * trade callback that updates it, and the in-place redrawing of the console block.
 */
module Session {
  import opened Wrappers
  import opened Models
  import opened Classifier
  import opened Tracker
  import opened Render
  import Sound

  /** What the callback does to the terminal. */
  datatype TerminalOp = MoveUp(lines: nat) | ClearDown | Write(block: seq<Piece>)

  /** Overwrite the previous block when there is one, then write the new block. */
  function Frame(wasLogged: bool, output: seq<Piece>): (ops: seq<TerminalOp>)
    ensures !wasLogged ==> ops == [Write(output)]
    ensures |ops| > 0 && ops[|ops| - 1] == Write(output)
    ensures wasLogged ==> |ops| == 3 && ops[0] == MoveUp(LineCount(output)) && ops[1] == ClearDown
  {
    (if wasLogged then [MoveUp(LineCount(output)), ClearDown] else []) + [Write(output)]
  }

  /** Records made for exactly the configured markets, all in their initial form, are settled. */
  lemma InitialRecords(m: Markets, data: map<string, MarketRecord>)
    requires WellFormed(m)
    requires forall n :: n in data <==> n in m.order
    requires forall n :: n in data ==> n in m.thresholds && data[n] == Initial(m.thresholds[n])
    ensures data.Keys == m.thresholds.Keys
    ensures forall n :: n in data ==> data[n].threshold == m.thresholds[n] && Settled(data[n])
  {
  }

  /** Adding the initial record of one more configured market keeps the fill loop's invariant. */
  lemma AddInitial(data: map<string, MarketRecord>, names: seq<string>, thresholds: map<string, real>, name: string)
    requires forall n :: n in data <==> n in names
    requires forall n :: n in data ==> n in thresholds && data[n] == Initial(thresholds[n])
    requires name in thresholds
    ensures forall n :: n in data[name := Initial(thresholds[name])] <==> n in names + [name]
    ensures forall n :: n in data[name := Initial(thresholds[name])] ==>
      n in thresholds && data[name := Initial(thresholds[name])][n] == Initial(thresholds[n])
  {
  }

  /** One monitoring session over a fixed configuration. */
  class Watch {
    const config: Config
    /** The keys of `data`, in insertion order. */
    var names: seq<string>
    var data: map<string, MarketRecord>
    /** Whether a block has been written to the terminal. */
    var logged: bool
    /** The block written last. */
    ghost var lastBlock: seq<Piece>

    ghost predicate Valid()
      reads this
    {
      && WellFormed(config.markets)
      && names == config.markets.order
      && data.Keys == config.markets.thresholds.Keys
      && (forall n :: n in data ==> data[n].threshold == config.markets.thresholds[n] && Settled(data[n]))
      && (logged ==> LineCount(lastBlock) == |names| + NameBreaks(names))
    }

    /** Every configured market gets a record with no price, state Unknown, not notified. */
    constructor Start(config: Config)
      requires WellFormed(config.markets)
      ensures Valid() && !logged
      ensures this.config == config
      ensures names == config.markets.order
      ensures data.Keys == config.markets.thresholds.Keys
      ensures forall n :: n in data ==> data[n] == Initial(config.markets.thresholds[n])
    {
      this.config := config;
      names := [];
      data := map[];
      logged := false;
      lastBlock := [];
      new;
      var order, thresholds := config.markets.order, config.markets.thresholds;
      for i := 0 to |order|
        invariant names == order[..i] && !logged
        invariant forall n :: n in data <==> n in names
        invariant forall n :: n in data ==> n in thresholds && data[n] == Initial(thresholds[n])
      {
        var name := order[i];
        AddInitial(data, names, thresholds, name);
        data := data[name := Initial(thresholds[name])];
        names := names + [name];
      }
      assert order[..|order|] == order;
      InitialRecords(config.markets, data);
    }

    /**
     * The state update of the trade callback for market `name` at `price`; returns whether
     * a notification is due. Only that market's record changes, and it is left notified.
     */
    method Apply(name: string, price: real) returns (due: bool)
      requires Valid() && name in data
      modifies this`data
      ensures Valid()
      ensures data == old(data)[name := Step(old(data[name]), price).record]
      ensures due == Step(old(data[name]), price).due
      ensures due <==> old(data[name]).state != data[name].state
      ensures data[name].state == Classify(data[name].threshold, price) && data[name].notified
    {
      // `rec` stands for the record object `data[name]`, which the callback updates in place.
      var rec := data[name];
      if rec.state == Unknown {
        rec := rec.(price := Some(price));
        rec := rec.(state := Classify(config.markets.thresholds[name], price));
      } else {
        rec := rec.(price := Some(price));
        var newState := Classify(rec.threshold, price);
        if newState != rec.state {
          rec := rec.(state := newState);
          rec := rec.(notified := false);
        }
      }
      due := !rec.notified;
      if due {
        rec := rec.(notified := true);
      }
      assert rec == Step(old(data[name]), price).record;
      data := data[name := rec];
    }

    /**
     * Writes `output`, first moving the cursor up over the previous block when one was
     * written; the move covers exactly the lines of that block.
     */
    method Redraw(output: seq<Piece>) returns (ops: seq<TerminalOp>)
      requires Valid() && output == Rendered(names, data)
      modifies this`logged, this`lastBlock
      ensures Valid() && logged && lastBlock == output
      ensures ops == Frame(old(logged), output)
      ensures old(logged) ==> LineCount(output) == LineCount(old(lastBlock))
    {
      RenderedHeight(names, data);
      var linesCount := LineCount(output);
      ops := [];
      if logged {
        ops := ops + [MoveUp(linesCount), ClearDown];
      }
      ops := ops + [Write(output)];
      logged := true;
      lastBlock := output;
    }

    /**
     * The whole trade callback. When a notification is due, the sound for the new state is
     * played; `playbackOk` is the player's outcome. A failed playback rejects the awaited
     * promise, so that trade draws nothing, but the market stays notified.
     */
    method OnTrade(name: string, price: real, playbackOk: bool) returns (played: Option<string>, ops: seq<TerminalOp>)
      requires Valid() && name in data
      modifies this
      ensures Valid() && names == old(names)
      ensures data == old(data)[name := Step(old(data[name]), price).record]
      ensures played.Some? <==> Step(old(data[name]), price).due
      ensures played.Some? ==> played.value == Sound.PlayedPath(Sound.SoundAsset(config.gilfoyleMode, data[name].state))
      ensures played.Some? && !playbackOk ==> ops == [] && logged == old(logged)
      ensures !(played.Some? && !playbackOk) ==> logged && ops == Frame(old(logged), Rendered(names, data))
    {
      var due := Apply(name, price);
      played := None;
      if due {
        played := Some(Sound.PlayedPath(Sound.SoundAsset(config.gilfoyleMode, data[name].state)));
        if !playbackOk {
          ops := [];
          return;
        }
      }
      var output := RenderOutput(names, data);
      ops := Redraw(output);
    }
  }

  /** Two markets at 50000 and 3000, and four trades, as a client sees them. */
  method TwoMarketSession()
  {
    var markets := Markets(["BTCUSDT", "ETHUSDT"], map["BTCUSDT" := 50000.0, "ETHUSDT" := 3000.0]);
    var w := new Watch.Start(Config(Some("k"), Some("s"), None, markets));
    var due := w.Apply("BTCUSDT", 49000.0);
    assert due && w.data["BTCUSDT"].state == BelowThreshold;
    due := w.Apply("BTCUSDT", 49500.0);
    assert !due && w.data["BTCUSDT"].state == BelowThreshold;
    due := w.Apply("BTCUSDT", 50500.0);
    assert due && w.data["BTCUSDT"].state == AboveThreshold;
    due := w.Apply("ETHUSDT", 3000.0);
    assert due && w.data["ETHUSDT"].state == AtThreshold;
  }

  /** With Gilfoyle mode on, the first trade of a fresh market plays the napalm sound. */
  method GilfoyleSession()
  {
    var markets := Markets(["BTCUSDT"], map["BTCUSDT" := 50000.0]);
    var w := new Watch.Start(Config(Some("k"), Some("s"), Some(true), markets));
    var played, ops := w.OnTrade("BTCUSDT", 49000.0, true);
    assert played == Some(Sound.PlayedPath(Some("napalm")));
  }
}
