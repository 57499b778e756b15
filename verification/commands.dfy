/** The `add market` command of src/index.ts: store a sanitised market name with its threshold. */
module Commands {
  import opened Wrappers
  import opened Models
  import Sanitiser
  import Validators

  /**
   * `markets[name] = target` on a JavaScript object: an existing key keeps its place and
   * gets the new threshold, a new key is appended to the key order.
   */
  function Put(m: Markets, name: string, target: real): (r: Markets)
    requires WellFormed(m)
    ensures WellFormed(r)
    ensures name in r.thresholds && r.thresholds[name] == target
    ensures forall n :: n in r.thresholds && n != name ==> n in m.thresholds && r.thresholds[n] == m.thresholds[n]
    ensures forall n :: n in m.thresholds ==> n in r.thresholds
    ensures name in m.thresholds ==> r.order == m.order
    ensures name !in m.thresholds ==> r.order == m.order + [name]
  {
    Markets(if name in m.thresholds then m.order else m.order + [name], m.thresholds[name := target])
  }

  /**
   * The whole command: the credential check runs first and aborts with its message;
   * otherwise the sanitised name is stored with the threshold and nothing else changes.
   */
  function AddMarket(config: Config, market: string, target: real): (r: Result<Config, string>)
    requires WellFormed(config.markets)
    ensures r.Failure? <==> !Validators.IsSet(config.key) || !Validators.IsSet(config.secret)
    ensures r.Failure? ==> r.error == Validators.CREDENTIALS_MESSAGE
    ensures r.Success? ==>
      && r.value.key == config.key && r.value.secret == config.secret
      && r.value.gilfoyleMode == config.gilfoyleMode
      && WellFormed(r.value.markets)
      && r.value.markets.thresholds == config.markets.thresholds[Sanitiser.Sanitise(market) := target]
      && r.value.markets.order ==
           if Sanitiser.Sanitise(market) in config.markets.thresholds then config.markets.order
           else config.markets.order + [Sanitiser.Sanitise(market)]
  {
    match Validators.ApiCredsExist(config.key, config.secret)
    case Fail(e) => Failure(e)
    case Pass => Success(config.(markets := Put(config.markets, Sanitiser.Sanitise(market), target)))
  }

  /** Adding the same market twice keeps one entry, holding the later threshold. */
  lemma AddMarketOverwrites(config: Config, market: string, t1: real, t2: real)
    requires WellFormed(config.markets)
    requires AddMarket(config, market, t1).Success?
    ensures var once := AddMarket(config, market, t1).value;
      && AddMarket(once, market, t2).Success?
      && AddMarket(once, market, t2).value.markets.order == once.markets.order
      && AddMarket(once, market, t2).value.markets.thresholds[Sanitiser.Sanitise(market)] == t2
  {
  }

  /** Adding a name as typed and adding its sanitised form have the same effect. */
  lemma AddMarketSanitisedKey(config: Config, market: string, target: real)
    requires WellFormed(config.markets)
    ensures AddMarket(config, Sanitiser.Sanitise(market), target) == AddMarket(config, market, target)
  {
    Sanitiser.SanitiseIdempotent(market);
  }
}
