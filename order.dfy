/**
 * The backtest simulation engine (`indicators`): it builds the candle list,
 * then walks the bars from index `StrategyPeriod` to the end. On every bar it
 * asks the risk gate whether a buy is allowed, asks the strategy for a signal
 * when it is, records a buy and arms the tracker, asks an armed tracker for
 * an exit, and finally marks the account to market and appends the total
 * balance to the equity curve.
 *
 * The loop's meaning is given by the pure functions `Step` and `Run`; the
 * method `Indicators` is proved to leave the account, the tracker, the event
 * maps, the log and the equity curve exactly where `Run` says.
 */
module Order {
  import opened Types
  import opened RiskGate
  import opened Strategies
  import opened Collaborators

  /** `strategy_1_period`: the bars of history each decision looks back over. */
  const StrategyPeriod: nat := 7

  /** An entry of the event log: the initial `-1`, then "BUY" and "SELL". */
  datatype LogEntry = Start | BuyMark | SellMark

  /**
   * The price data handed to the engine: the bar series, the indicator series
   * attached to them, and the equity curve `ongoing_balance` the engine
   * appends to.
   */
  class MarketData {
    const datetimes: seq<Time>
    const opens: seq<real>
    const closes: seq<real>
    const highs: seq<real>
    const lows: seq<real>
    const sma: seq<real>
    const rsi: seq<real>
    const atr: seq<real>
    const stdDev: seq<real>
    var ongoingBalance: seq<real>

    constructor (datetimes: seq<Time>, opens: seq<real>, closes: seq<real>, highs: seq<real>, lows: seq<real>,
                 sma: seq<real>, rsi: seq<real>, atr: seq<real>, stdDev: seq<real>, ongoingBalance: seq<real>)
      ensures this.datetimes == datetimes && this.opens == opens && this.closes == closes
      ensures this.highs == highs && this.lows == lows && this.sma == sma && this.rsi == rsi
      ensures this.atr == atr && this.stdDev == stdDev && this.ongoingBalance == ongoingBalance
    {
      this.datetimes, this.opens, this.closes, this.highs, this.lows := datetimes, opens, closes, highs, lows;
      this.sma, this.rsi, this.atr, this.stdDev := sma, rsi, atr, stdDev;
      this.ongoingBalance := ongoingBalance;
    }

    /** Every series has an entry for each close, so building candle `i` reads no missing index. */
    predicate Aligned() {
      && |datetimes| >= |closes| && |opens| >= |closes| && |highs| >= |closes| && |lows| >= |closes|
      && |sma| >= |closes| && |rsi| >= |closes| && |atr| >= |closes| && |stdDev| >= |closes|
    }
  }

  /** Candle `i`, assembled from the `i`-th entry of every series. */
  function CandleAt(data: MarketData, i: nat): Candle
    requires data.Aligned() && i < |data.closes|
  {
    Candle(data.datetimes[i], data.opens[i], data.closes[i], data.highs[i], data.lows[i],
           data.sma[i], data.rsi[i], data.atr[i], data.stdDev[i])
  }

  /** The candle list the engine walks. */
  function Candles(data: MarketData): seq<Candle>
    requires data.Aligned()
  {
    seq(|data.closes|, i requires 0 <= i < |data.closes| => CandleAt(data, i))
  }

  /** The loop that builds the candle list: one candle per close, field by field. */
  method BuildCandles(data: MarketData) returns (candles: seq<Candle>)
    requires data.Aligned()
    ensures |candles| == |data.closes|
    ensures forall i :: 0 <= i < |candles| ==>
              && candles[i].datetime == data.datetimes[i] && candles[i].open == data.opens[i]
              && candles[i].close == data.closes[i] && candles[i].high == data.highs[i]
              && candles[i].low == data.lows[i] && candles[i].sma == data.sma[i]
              && candles[i].rsi == data.rsi[i] && candles[i].atr == data.atr[i]
              && candles[i].stdDev == data.stdDev[i]
  {
    candles := [];
    for i := 0 to |data.closes|
      invariant |candles| == i
      invariant forall k :: 0 <= k < i ==> candles[k] == CandleAt(data, k)
    {
      var candle := Candle(data.datetimes[i], data.opens[i], data.closes[i], data.highs[i], data.lows[i],
                           data.sma[i], data.rsi[i], data.atr[i], data.stdDev[i]);
      candles := candles + [candle];
    }
  }

  /** The `buy` helper: record the entry, place the order, log it. */
  method Buy(account: Account, entries: map<Time, real>, log: seq<LogEntry>, candle: Candle, amount: real, price: real)
    returns (newEntries: map<Time, real>, newLog: seq<LogEntry>)
    modifies account
    ensures account.State() == account.ledger.buyOrder(old(account.State()), candle.datetime, amount, price)
    ensures newEntries == entries[candle.datetime := price]
    ensures newLog == log + [BuyMark]
  {
    newEntries := entries[candle.datetime := price];
    account.BuyOrder(candle.datetime, amount, price);
    newLog := log + [BuyMark];
  }

  /** The `sell` helper: record the exit, place the order, log it. */
  method Sell(account: Account, exits: map<Time, real>, log: seq<LogEntry>, candle: Candle, price: real)
    returns (newExits: map<Time, real>, newLog: seq<LogEntry>)
    modifies account
    ensures account.State() == account.ledger.sellOrder(old(account.State()), candle.datetime, price)
    ensures newExits == exits[candle.datetime := price]
    ensures newLog == log + [SellMark]
  {
    newExits := exits[candle.datetime := price];
    account.SellOrder(candle.datetime, price);
    newLog := log + [SellMark];
  }

  // ---------------------------------------------------------------------
  // The loop's meaning, one bar at a time.
  // ---------------------------------------------------------------------

  /** Everything the loop carries from one bar to the next. */
  datatype World<S> = World(
    acct: AccountState,
    tracker: S,
    entries: map<Time, real>,
    exits: map<Time, real>,
    log: seq<LogEntry>,
    equity: seq<real>          // `data.ongoing_balance`
  )

  /** The fixed inputs of one run: configuration, the value of ln(period + 1), the collaborators. */
  datatype Env<!S> = Env(cfg: Config, lnPeriodPlusOne: real, ledger: Ledger, envelope: Envelope<S>)

  /**
   * The state before the first bar: a fresh tracker, empty maps, the log
   * `[-1]`, and the equity curve as the caller left it.
   */
  function InitialWorld<S>(acct: AccountState, envelope: Envelope<S>, balances: seq<real>): World<S> {
    World(acct, envelope.init, map[], map[], [Start], balances)
  }

  /** `baseOrderValue * buyMultiplier`, the size requested from the gate. */
  function InitialBuyAmount(cfg: Config): real {
    cfg.baseOrderValue * cfg.buyMultiplier
  }

  /** The gate as the loop rebuilds it on every bar from the current account. */
  function GateAt(cfg: Config, acct: AccountState): Rules {
    Rules(Payload(InitialBuyAmount(cfg), Some(acct.uninvestedBalance), acct), cfg)
  }

  /** The strategy can divide by every standard deviation it may be asked to read. */
  predicate DecisionsDefined(candles: seq<Candle>) {
    forall k :: StrategyPeriod - 1 <= k < |candles| - 1 ==> candles[k].stdDev != 0.0
  }

  /** `candles[i - period : i + 1]`. */
  function Window(candles: seq<Candle>, i: nat): seq<Candle>
    requires StrategyPeriod <= i < |candles|
  {
    candles[i - StrategyPeriod .. i + 1]
  }

  /** The strategy's answer on bar `i`. */
  function SignalAt<S>(env: Env<S>, candles: seq<Candle>, i: nat): Signal
    requires StrategyPeriod <= i < |candles| && DecisionsDefined(candles)
  {
    assert Previous(Window(candles, i)) == candles[i - 1];
    BearishComeback(Window(candles, i), StrategyPeriod, env.cfg, env.lnPeriodPlusOne)
  }

  /** Gate, strategy and, on a buy, the entry and the armed tracker. */
  function BuyPhase<S>(env: Env<S>, w: World<S>, candles: seq<Candle>, i: nat): World<S>
    requires StrategyPeriod <= i < |candles| && DecisionsDefined(candles)
  {
    if !GateAt(env.cfg, w.acct).Validate().All() then w
    else
      match SignalAt(env, candles, i)
      case NoBuy => w
      case Buy(price, amount) =>
        var c := candles[i];
        w.(acct := env.ledger.buyOrder(w.acct, c.datetime, amount, price),
           entries := w.entries[c.datetime := price],
           log := w.log + [BuyMark],
           tracker := env.envelope.update(w.tracker, price, c.atr, c.datetime))
  }

  /** An armed tracker is asked for an exit; a sell is recorded and disarms it. */
  function ExitPhase<S>(env: Env<S>, w: World<S>, c: Candle): World<S> {
    if !env.envelope.valuesSet(w.tracker) then w
    else
      var (response, t) := env.envelope.exit(w.tracker, c);
      match response
      case Hold => w.(tracker := t)
      case Sell(price) =>
        w.(acct := env.ledger.sellOrder(w.acct, c.datetime, price),
           exits := w.exits[c.datetime := price],
           log := w.log + [SellMark],
           tracker := env.envelope.remove(t))
  }

  /** Mark to market at the bar's close and extend the equity curve. */
  function MarkToMarket<S>(cfg: Config, w: World<S>, close: real): World<S> {
    var openPositionAmount := w.acct.sharesOwned * close;
    var balanceAbsolute := w.acct.uninvestedBalance + openPositionAmount;
    w.(acct := w.acct.(openPositionAmount := openPositionAmount,
                       balanceAbsolute := balanceAbsolute,
                       profit := balanceAbsolute - cfg.initialBalance),
       equity := w.equity + [balanceAbsolute])
  }

  /** One iteration of the loop, on bar `i`. */
  function Step<S>(env: Env<S>, w: World<S>, candles: seq<Candle>, i: nat): World<S>
    requires StrategyPeriod <= i < |candles| && DecisionsDefined(candles)
  {
    MarkToMarket(env.cfg, ExitPhase(env, BuyPhase(env, w, candles, i), candles[i]), candles[i].close)
  }

  /** The state after the iterations for bars `StrategyPeriod .. k - 1`. */
  function Run<S>(env: Env<S>, candles: seq<Candle>, w0: World<S>, k: nat): World<S>
    requires k <= |candles| || k <= StrategyPeriod
    requires DecisionsDefined(candles)
    decreases k
  {
    if k <= StrategyPeriod then w0
    else Step(env, Run(env, candles, w0, k - 1), candles, k - 1)
  }

  /** One more bar extends a run by one step. */
  lemma RunNext<S>(env: Env<S>, candles: seq<Candle>, w0: World<S>, k: nat)
    requires StrategyPeriod <= k < |candles| && DecisionsDefined(candles)
    ensures Run(env, candles, w0, k + 1) == Step(env, Run(env, candles, w0, k), candles, k)
  {
  }

  /** A whole run over `candles`, from the account state `acct` and the equity curve `balances`. */
  function Simulate<S>(env: Env<S>, candles: seq<Candle>, acct: AccountState, balances: seq<real>): World<S>
    requires DecisionsDefined(candles)
  {
    Run(env, candles, InitialWorld(acct, env.envelope, balances), |candles|)
  }

  // ---------------------------------------------------------------------
  // The engine.
  // ---------------------------------------------------------------------

  /**
   * The entry half of the loop body for bar `i`: rebuild the gate's payload,
   * validate, consult the strategy and, on a buy signal, buy and arm the
   * tracker. It leaves everything where `BuyPhase` says.
   */
  method TryBuy<S>(env: Env<S>, account: Account, tracker: StopLossTakeProfit<S>, rules: Rules,
                   entries: map<Time, real>, log: seq<LogEntry>, candles: seq<Candle>, i: nat, ghost w: World<S>)
    returns (newRules: Rules, newEntries: map<Time, real>, newLog: seq<LogEntry>)
    requires StrategyPeriod <= i < |candles| && DecisionsDefined(candles)
    requires account.ledger == env.ledger && tracker.behaviour == env.envelope && rules.config == env.cfg
    requires account.State() == w.acct && tracker.state == w.tracker && entries == w.entries && log == w.log
    modifies account, tracker
    ensures newRules == GateAt(env.cfg, w.acct)
    ensures account.State() == BuyPhase(env, w, candles, i).acct
    ensures tracker.state == BuyPhase(env, w, candles, i).tracker
    ensures newEntries == BuyPhase(env, w, candles, i).entries
    ensures newLog == BuyPhase(env, w, candles, i).log
  {
    newEntries, newLog := entries, log;
    var payload := Payload(InitialBuyAmount(env.cfg), Some(account.uninvestedBalance), account.State());
    newRules := rules.(payload := payload);
    var validateResponse := newRules.Validate();
    if validateResponse.All() {
      var response := BearishComeback(candles[i - StrategyPeriod .. i + 1], StrategyPeriod, env.cfg, env.lnPeriodPlusOne);
      assert response == SignalAt(env, candles, i);
      if response.Buy? {
        newEntries, newLog := Buy(account, newEntries, newLog, candles[i], response.amount, response.price);
        tracker.Update(response.price, candles[i].atr, candles[i].datetime);
      }
    }
  }

  /**
   * The exit half of the loop body: an armed tracker is asked for an exit,
   * and a sell is executed and disarms it. It leaves everything where
   * `ExitPhase` says.
   */
  method CheckExit<S>(env: Env<S>, account: Account, tracker: StopLossTakeProfit<S>,
                      exits: map<Time, real>, log: seq<LogEntry>, candle: Candle, ghost w: World<S>)
    returns (newExits: map<Time, real>, newLog: seq<LogEntry>)
    requires account.ledger == env.ledger && tracker.behaviour == env.envelope
    requires account.State() == w.acct && tracker.state == w.tracker && exits == w.exits && log == w.log
    modifies account, tracker
    ensures account.State() == ExitPhase(env, w, candle).acct
    ensures tracker.state == ExitPhase(env, w, candle).tracker
    ensures newExits == ExitPhase(env, w, candle).exits
    ensures newLog == ExitPhase(env, w, candle).log
  {
    newExits, newLog := exits, log;
    if tracker.ValuesSet() {
      var sltpResponse := tracker.Exit(candle);
      if sltpResponse.Sell? {
        newExits, newLog := Sell(account, newExits, newLog, candle, sltpResponse.price);
        tracker.Remove();
      }
    }
  }

  /**
   * The body of the loop for bar `i`: gate, strategy, buy, exit check, mark
   * to market, equity append. It leaves the collaborators and the engine's
   * own state where `Step` says, given that they start where `w` says.
   */
  method ProcessBar<S>(env: Env<S>, account: Account, tracker: StopLossTakeProfit<S>, data: MarketData,
                       rules: Rules, entries: map<Time, real>, exits: map<Time, real>, log: seq<LogEntry>,
                       candles: seq<Candle>, i: nat, ghost w: World<S>)
    returns (newRules: Rules, newEntries: map<Time, real>, newExits: map<Time, real>, newLog: seq<LogEntry>,
             ghost next: World<S>)
    requires StrategyPeriod <= i < |candles| && DecisionsDefined(candles)
    requires account.ledger == env.ledger && tracker.behaviour == env.envelope && rules.config == env.cfg
    requires account.State() == w.acct && tracker.state == w.tracker
    requires entries == w.entries && exits == w.exits && log == w.log && data.ongoingBalance == w.equity
    modifies account, tracker, data
    ensures newRules.config == env.cfg
    ensures next == Step(env, w, candles, i)
    ensures account.State() == next.acct && tracker.state == next.tracker
    ensures newEntries == next.entries && newExits == next.exits && newLog == next.log
    ensures data.ongoingBalance == next.equity
  {
    ghost var bought := BuyPhase(env, w, candles, i);
    newRules, newEntries, newLog := TryBuy(env, account, tracker, rules, entries, log, candles, i, w);
    ghost var exited := ExitPhase(env, bought, candles[i]);
    newExits, newLog := CheckExit(env, account, tracker, exits, newLog, candles[i], bought);

    var currentClose := candles[i].close;
    account.openPositionAmount := account.sharesOwned * currentClose;
    account.balanceAbsolute := account.uninvestedBalance + account.openPositionAmount;
    account.profit := account.balanceAbsolute - env.cfg.initialBalance;
    data.ongoingBalance := data.ongoingBalance + [account.balanceAbsolute];
    next := MarkToMarket(env.cfg, exited, currentClose);
    assert account.State() == next.acct;
  }

  /**
   * The gate set-up and the per-bar loop of `indicators`: bars
   * `StrategyPeriod .. |candles| - 1`, in ascending order, starting from the
   * maps and log given.
   */
  method SimulateBars<S>(env: Env<S>, account: Account, tracker: StopLossTakeProfit<S>, data: MarketData,
                         candles: seq<Candle>, entries0: map<Time, real>, exits0: map<Time, real>, log0: seq<LogEntry>,
                         ghost w0: World<S>)
    returns (entries: map<Time, real>, exits: map<Time, real>, log: seq<LogEntry>, ghost final: World<S>)
    requires DecisionsDefined(candles)
    requires account.ledger == env.ledger && tracker.behaviour == env.envelope
    requires w0 == World(account.State(), tracker.state, entries0, exits0, log0, data.ongoingBalance)
    modifies account, tracker, data
    ensures final == Run(env, candles, w0, |candles|)
    ensures account.State() == final.acct && tracker.state == final.tracker
    ensures entries == final.entries && exits == final.exits && log == final.log
    ensures data.ongoingBalance == final.equity
  {
    entries, exits, log := entries0, exits0, log0;
    var rules := Rules(Payload(0.0, None, account.State()), env.cfg);

    var i := StrategyPeriod;
    final := w0;
    while i < |candles|
      invariant StrategyPeriod <= i && (i <= |candles| || i == StrategyPeriod)
      invariant final == Run(env, candles, w0, i)
      invariant rules.config == env.cfg
      invariant account.State() == final.acct && tracker.state == final.tracker
      invariant entries == final.entries && exits == final.exits && log == final.log
      invariant data.ongoingBalance == final.equity
    {
      RunNext(env, candles, w0, i);
      rules, entries, exits, log, final := ProcessBar(env, account, tracker, data, rules, entries, exits, log, candles, i, final);
      i := i + 1;
    }
  }

  /**
   * `indicators(account, data)`. Returns the entry and exit maps, the
   * tracker (which holds the stop-loss and take-profit regions) and the
   * event log; updates the account and `data.ongoing_balance` in place.
   */
  method Indicators<S>(account: Account, data: MarketData, cfg: Config, lnPeriodPlusOne: real, envelope: Envelope<S>)
    returns (entries: map<Time, real>, exits: map<Time, real>, tracker: StopLossTakeProfit<S>, log: seq<LogEntry>)
    requires data.Aligned() && DecisionsDefined(Candles(data))
    modifies account, data
    ensures fresh(tracker) && tracker.behaviour == envelope
    ensures var f := Simulate(Env(cfg, lnPeriodPlusOne, account.ledger, envelope), Candles(data),
                              old(account.State()), old(data.ongoingBalance));
            && account.State() == f.acct && tracker.state == f.tracker
            && entries == f.entries && exits == f.exits && log == f.log
            && data.ongoingBalance == f.equity
  {
    var env := Env(cfg, lnPeriodPlusOne, account.ledger, envelope);
    tracker := new StopLossTakeProfit(envelope);
    var candles := BuildCandles(data);
    assert candles == Candles(data);
    ghost var w0 := InitialWorld(account.State(), envelope, data.ongoingBalance);
    ghost var final;
    entries, exits, log, final := SimulateBars(env, account, tracker, data, candles, map[], map[], [Start], w0);
    assert final == Simulate(env, Candles(data), old(account.State()), old(data.ongoingBalance));
  }
}
