/**
 * What the simulation loop guarantees, stated over its meaning `Run`/`Step`
 * and therefore, through the postconditions of `Order.Indicators`, over the
 * engine itself. None of these facts depends on what the account or the
 * tracker do internally.
 */
module OrderProofs {
  import opened Types
  import opened RiskGate
  import opened Strategies
  import opened Collaborators
  import opened Order

  // ---------------------------------------------------------------------
  // Vocabulary.
  // ---------------------------------------------------------------------

  /** The number of bars a run up to `k` has visited. */
  function Visited(k: nat): nat {
    if k <= StrategyPeriod then 0 else k - StrategyPeriod
  }

  /** The gate passed and the strategy fired on bar `i`. */
  predicate Bought<S>(env: Env<S>, w: World<S>, candles: seq<Candle>, i: nat)
    requires StrategyPeriod <= i < |candles| && DecisionsDefined(candles)
  {
    GateAt(env.cfg, w.acct).Validate().All() && SignalAt(env, candles, i).Buy?
  }

  /** After the buy phase the tracker was armed and its exit check said sell. */
  predicate Sold<S>(env: Env<S>, w: World<S>, candles: seq<Candle>, i: nat)
    requires StrategyPeriod <= i < |candles| && DecisionsDefined(candles)
  {
    var armed := BuyPhase(env, w, candles, i).tracker;
    env.envelope.valuesSet(armed) && env.envelope.exit(armed, candles[i]).0.Sell?
  }

  /** The three derived account fields agree with a mark to market at `close`. */
  predicate MarkedToMarket(acct: AccountState, close: real, initialBalance: real) {
    && acct.openPositionAmount == acct.sharesOwned * close
    && acct.balanceAbsolute == acct.uninvestedBalance + acct.openPositionAmount
    && acct.profit == acct.balanceAbsolute - initialBalance
  }

  // ---------------------------------------------------------------------
  // The strategy's window: eight bars ending at the current one.
  // ---------------------------------------------------------------------

  /** Bar `i` sees `candles[i - 7 .. i]`, in order, and nothing after bar `i`. */
  lemma WindowShape(candles: seq<Candle>, i: nat)
    requires StrategyPeriod <= i < |candles|
    ensures |Window(candles, i)| == StrategyPeriod + 1
    ensures forall j :: 0 <= j < |Window(candles, i)| ==> Window(candles, i)[j] == candles[i - StrategyPeriod + j]
    ensures Current(Window(candles, i)) == candles[i]
    ensures Previous(Window(candles, i)) == candles[i - 1]
    ensures Origin(Window(candles, i), StrategyPeriod) == candles[i - StrategyPeriod]
  {
  }

  /**
   * The engine's signal on bar `i`, in terms of the bars themselves: buy at
   * bar `i`'s open exactly when the drop from bar `i - 7`'s open to bar
   * `i - 1`'s, over bar `i - 1`'s deviation, beats the threshold and bar
   * `i - 1` was bearish.
   */
  lemma SignalAtBars<S>(env: Env<S>, candles: seq<Candle>, i: nat)
    requires StrategyPeriod <= i < |candles| && DecisionsDefined(candles)
    ensures candles[i - 1].stdDev != 0.0
    ensures SignalAt(env, candles, i).Buy? <==>
              ((candles[i - StrategyPeriod].open - candles[i - 1].open) / candles[i - 1].stdDev
                 > Threshold(env.cfg, env.lnPeriodPlusOne)
               && candles[i - 1].close < candles[i - 1].open)
    ensures SignalAt(env, candles, i).Buy? ==>
              && SignalAt(env, candles, i).price == candles[i].open
              && SignalAt(env, candles, i).amount
                 == env.cfg.baseOrderValue * ((candles[i - StrategyPeriod].open - candles[i - 1].open) / candles[i - 1].stdDev)
  {
    WindowShape(candles, i);
  }

  /**
   * No look-ahead: the decision on bar `i` is the same for any two series
   * that agree on bars `0 .. i`.
   */
  lemma SignalIgnoresFuture<S>(env: Env<S>, c1: seq<Candle>, c2: seq<Candle>, i: nat)
    requires StrategyPeriod <= i < |c1| && i < |c2| && DecisionsDefined(c1) && DecisionsDefined(c2)
    requires c1[..i + 1] == c2[..i + 1]
    ensures SignalAt(env, c1, i) == SignalAt(env, c2, i)
  {
    assert Window(c1, i) == c1[..i + 1][i - StrategyPeriod ..];
    assert Window(c2, i) == c2[..i + 1][i - StrategyPeriod ..];
  }

  // ---------------------------------------------------------------------
  // One iteration.
  // ---------------------------------------------------------------------

  /**
   * The log gains at most one "BUY" and then at most one "SELL": a "BUY"
   * exactly when the gate passed and the strategy fired, a "SELL" exactly
   * when the tracker, armed after any buy of this bar, said sell.
   */
  lemma StepLog<S>(env: Env<S>, w: World<S>, candles: seq<Candle>, i: nat)
    requires StrategyPeriod <= i < |candles| && DecisionsDefined(candles)
    ensures Step(env, w, candles, i).log
            == w.log + (if Bought(env, w, candles, i) then [BuyMark] else [])
                     + (if Sold(env, w, candles, i) then [SellMark] else [])
  {
  }

  /**
   * A buy uses the strategy's size and price (not the gate's clamped size),
   * records the bar's datetime with that price, and arms the tracker with the
   * price and the bar's ATR and datetime. Without a buy nothing changes.
   */
  lemma StepBuy<S>(env: Env<S>, w: World<S>, candles: seq<Candle>, i: nat)
    requires StrategyPeriod <= i < |candles| && DecisionsDefined(candles)
    ensures var b := BuyPhase(env, w, candles, i);
            var s := SignalAt(env, candles, i);
            var c := candles[i];
            if Bought(env, w, candles, i) then
              && b.acct == env.ledger.buyOrder(w.acct, c.datetime, s.amount, s.price)
              && b.entries == w.entries[c.datetime := s.price]
              && b.tracker == env.envelope.update(w.tracker, s.price, c.atr, c.datetime)
              && b.exits == w.exits
            else b == w
  {
  }

  /**
   * The exit check runs only on an armed tracker. On a hold only the
   * tracker's own state may move; a sell is priced by the tracker, recorded
   * at the bar's datetime, settled through `sell_order` and followed by
   * `remove()`. The account's cash, shares and position count are those the
   * exit phase leaves (the mark to market rewrites only the derived fields).
   */
  lemma StepExit<S>(env: Env<S>, w: World<S>, candles: seq<Candle>, i: nat)
    requires StrategyPeriod <= i < |candles| && DecisionsDefined(candles)
    ensures var b := BuyPhase(env, w, candles, i);
            var step := Step(env, w, candles, i);
            var c := candles[i];
            && (!env.envelope.valuesSet(b.tracker) ==>
                  && step.tracker == b.tracker && step.exits == b.exits
                  && step.acct.uninvestedBalance == b.acct.uninvestedBalance
                  && step.acct.sharesOwned == b.acct.sharesOwned
                  && step.acct.openPositions == b.acct.openPositions)
            && (env.envelope.valuesSet(b.tracker) && env.envelope.exit(b.tracker, c).0.Hold? ==>
                  && step.tracker == env.envelope.exit(b.tracker, c).1 && step.exits == b.exits
                  && step.acct.uninvestedBalance == b.acct.uninvestedBalance
                  && step.acct.sharesOwned == b.acct.sharesOwned
                  && step.acct.openPositions == b.acct.openPositions)
            && (Sold(env, w, candles, i) ==>
                  var (response, t) := env.envelope.exit(b.tracker, c);
                  var l := env.ledger.sellOrder(b.acct, c.datetime, response.price);
                  && step.tracker == env.envelope.remove(t)
                  && step.exits == b.exits[c.datetime := response.price]
                  && step.acct.uninvestedBalance == l.uninvestedBalance
                  && step.acct.sharesOwned == l.sharesOwned
                  && step.acct.openPositions == l.openPositions)
            && step.entries == b.entries
  {
  }

  /** Every iteration ends with the account marked to market at the bar's close. */
  lemma StepMarksToMarket<S>(env: Env<S>, w: World<S>, candles: seq<Candle>, i: nat)
    requires StrategyPeriod <= i < |candles| && DecisionsDefined(candles)
    ensures MarkedToMarket(Step(env, w, candles, i).acct, candles[i].close, env.cfg.initialBalance)
    ensures Step(env, w, candles, i).equity == w.equity + [Step(env, w, candles, i).acct.balanceAbsolute]
  {
  }

  /**
   * The capacity gate: with as many open positions as the ceiling allows,
   * or with nothing uninvested, the bar produces no buy whatever the
   * strategy says.
   */
  lemma GateBlocksBuy<S>(env: Env<S>, w: World<S>, candles: seq<Candle>, i: nat)
    requires StrategyPeriod <= i < |candles| && DecisionsDefined(candles)
    requires w.acct.openPositions >= env.cfg.maxConcurrentPositions || w.acct.uninvestedBalance <= 0.0
    ensures !Bought(env, w, candles, i)
    ensures BuyPhase(env, w, candles, i) == w
    ensures Step(env, w, candles, i).entries == w.entries
  {
  }

  /** A bar's iteration reads no bar after it. */
  lemma StepIgnoresFuture<S>(env: Env<S>, w: World<S>, c1: seq<Candle>, c2: seq<Candle>, i: nat)
    requires StrategyPeriod <= i < |c1| && i < |c2| && DecisionsDefined(c1) && DecisionsDefined(c2)
    requires c1[..i + 1] == c2[..i + 1]
    ensures Step(env, w, c1, i) == Step(env, w, c2, i)
  {
    SignalIgnoresFuture(env, c1, c2, i);
    assert c1[i] == c1[..i + 1][i] == c2[..i + 1][i] == c2[i];
  }

  // ---------------------------------------------------------------------
  // Whole runs.
  // ---------------------------------------------------------------------

  /**
   * Induction over the loop: a property of the state that holds after the
   * bars before `m` and that every later iteration preserves holds after the
   * bars before `k`.
   */
  lemma {:induction false} RunPreserves<S>(env: Env<S>, candles: seq<Candle>, w0: World<S>, m: nat, k: nat,
                                            inv: (World<S>, nat) -> bool)
    requires StrategyPeriod <= m <= k && (k <= |candles| || k == StrategyPeriod)
    requires DecisionsDefined(candles)
    requires inv(Run(env, candles, w0, m), m)
    requires forall w, i {:trigger Step(env, w, candles, i)} | m <= i < k && inv(w, i) :: inv(Step(env, w, candles, i), i + 1)
    ensures inv(Run(env, candles, w0, k), k)
  {
    if k > m {
      RunPreserves(env, candles, w0, m, k - 1, inv);
    }
  }

  /** `b` starts with `a`. */
  predicate Extends<T(==)>(a: seq<T>, b: seq<T>) {
    |a| <= |b| && b[..|a|] == a
  }

  lemma ExtendsTrans<T>(a: seq<T>, b: seq<T>, c: seq<T>)
    requires Extends(a, b) && Extends(b, c)
    ensures Extends(a, c)
  {
    assert c[..|a|] == c[..|b|][..|a|];
  }

  /** The equity curve has `n` values beyond the initial ones. */
  predicate EquityShape(e0: seq<real>, equity: seq<real>, n: nat) {
    |equity| == |e0| + n && Extends(e0, equity)
  }

  /** The state after the bars before `i` has one equity value per visited bar. */
  predicate EquityAfter<S>(e0: seq<real>, w: World<S>, i: nat) {
    EquityShape(e0, w.equity, Visited(i))
  }

  /**
   * The equity curve gains exactly one value per visited bar and never loses
   * one.
   */
  lemma {:induction false} RunEquity<S>(env: Env<S>, candles: seq<Candle>, w0: World<S>, k: nat)
    requires k <= |candles| || k <= StrategyPeriod
    requires DecisionsDefined(candles)
    ensures EquityShape(w0.equity, Run(env, candles, w0, k).equity, Visited(k))
  {
    assert w0.equity[..|w0.equity|] == w0.equity;
    if k > StrategyPeriod {
      var inv := (w: World<S>, i: nat) => EquityAfter(w0.equity, w, i);
      forall w, i | StrategyPeriod <= i < k && inv(w, i)
        ensures inv(Step(env, w, candles, i), i + 1)
      {
        assert EquityAfter(w0.equity, w, i);
        StepMarksToMarket(env, w, candles, i);
        var e := Step(env, w, candles, i).equity;
        assert e[..|w0.equity|] == w.equity[..|w0.equity|];
      }
      RunPreserves(env, candles, w0, StrategyPeriod, k, inv);
    }
  }

  /** A later state's equity curve extends an earlier state's. */
  lemma {:induction false} RunEquityExtends<S>(env: Env<S>, candles: seq<Candle>, w0: World<S>, m: nat, k: nat)
    requires StrategyPeriod <= m <= k <= |candles| && DecisionsDefined(candles)
    ensures Extends(Run(env, candles, w0, m).equity, Run(env, candles, w0, k).equity)
  {
    var em := Run(env, candles, w0, m).equity;
    assert em[..|em|] == em;
    var inv := (w: World<S>, i: nat) => Extends(em, w.equity);
    forall w, i | m <= i < k && inv(w, i)
      ensures inv(Step(env, w, candles, i), i + 1)
    {
      StepMarksToMarket(env, w, candles, i);
      var e := Step(env, w, candles, i).equity;
      assert e[..|w.equity|] == w.equity;
      ExtendsTrans(em, w.equity, e);
    }
    RunPreserves(env, candles, w0, m, k, inv);
  }

  /**
   * The value appended on bar `m - 1` is the total balance after that bar,
   * and no later bar overwrites it.
   */
  lemma RunEquityAt<S>(env: Env<S>, candles: seq<Candle>, w0: World<S>, m: nat, k: nat)
    requires StrategyPeriod < m <= k <= |candles| && DecisionsDefined(candles)
    ensures |w0.equity| + m - StrategyPeriod - 1 < |Run(env, candles, w0, k).equity|
    ensures Run(env, candles, w0, k).equity[|w0.equity| + m - StrategyPeriod - 1]
            == Run(env, candles, w0, m).acct.balanceAbsolute
  {
    RunEquity(env, candles, w0, m);
    RunEquityExtends(env, candles, w0, m, k);
    StepMarksToMarket(env, Run(env, candles, w0, m - 1), candles, m - 1);
    var em := Run(env, candles, w0, m).equity;
    var ek := Run(env, candles, w0, k).equity;
    assert ek[|em| - 1] == ek[..|em|][|em| - 1];
  }

  /** After at least one bar, the account is marked to market at the last visited close. */
  lemma RunMarkedToMarket<S>(env: Env<S>, candles: seq<Candle>, w0: World<S>, k: nat)
    requires StrategyPeriod < k <= |candles| && DecisionsDefined(candles)
    ensures MarkedToMarket(Run(env, candles, w0, k).acct, candles[k - 1].close, env.cfg.initialBalance)
  {
    StepMarksToMarket(env, Run(env, candles, w0, k - 1), candles, k - 1);
  }

  /** `log` is `log0` followed by "BUY" and "SELL" entries only. */
  predicate MarksAfter(log0: seq<LogEntry>, log: seq<LogEntry>) {
    && Extends(log0, log)
    && forall j :: |log0| <= j < |log| ==> log[j] in {BuyMark, SellMark}
  }

  lemma MarksAfterTrans(a: seq<LogEntry>, b: seq<LogEntry>, c: seq<LogEntry>)
    requires MarksAfter(a, b) && MarksAfter(b, c)
    ensures MarksAfter(a, c)
  {
    ExtendsTrans(a, b, c);
    forall j | |a| <= j < |c|
      ensures c[j] in {BuyMark, SellMark}
    {
      if j < |b| {
        assert c[j] == c[..|b|][j];
      }
    }
  }

  /** The log after `n` visited bars. */
  predicate LogShape(log0: seq<LogEntry>, log: seq<LogEntry>, n: nat) {
    MarksAfter(log0, log) && |log| <= |log0| + 2 * n
  }

  /** The state after the bars before `i` has a log of that shape. */
  predicate LogAfter<S>(log0: seq<LogEntry>, w: World<S>, i: nat) {
    LogShape(log0, w.log, Visited(i))
  }

  /**
   * The log keeps what it started with and only ever gains "BUY" and "SELL"
   * entries, at most two per visited bar.
   */
  lemma {:induction false} RunLog<S>(env: Env<S>, candles: seq<Candle>, w0: World<S>, k: nat)
    requires k <= |candles| || k <= StrategyPeriod
    requires DecisionsDefined(candles)
    ensures LogShape(w0.log, Run(env, candles, w0, k).log, Visited(k))
  {
    assert w0.log[..|w0.log|] == w0.log;
    if k > StrategyPeriod {
      var inv := (w: World<S>, i: nat) => LogAfter(w0.log, w, i);
      forall w, i | StrategyPeriod <= i < k && inv(w, i)
        ensures inv(Step(env, w, candles, i), i + 1)
      {
        assert LogAfter(w0.log, w, i);
        StepLog(env, w, candles, i);
        var log := Step(env, w, candles, i).log;
        assert log[..|w.log|] == w.log;
        MarksAfterTrans(w0.log, w.log, log);
      }
      RunPreserves(env, candles, w0, StrategyPeriod, k, inv);
    }
  }

  /** Every key of `events` beyond `events0`'s is the datetime of one of bars `StrategyPeriod .. i - 1`. */
  predicate KeyedByVisitedBars(events0: map<Time, real>, events: map<Time, real>, candles: seq<Candle>, i: nat) {
    forall t :: t in events ==>
      t in events0 || exists j :: StrategyPeriod <= j < i && j < |candles| && candles[j].datetime == t
  }

  /** Entries and exits are recorded only at the datetimes of visited bars. */
  lemma {:induction false} RunEventsAtVisitedBars<S>(env: Env<S>, candles: seq<Candle>, w0: World<S>, k: nat)
    requires k <= |candles| || k <= StrategyPeriod
    requires DecisionsDefined(candles)
    ensures KeyedByVisitedBars(w0.entries, Run(env, candles, w0, k).entries, candles, k)
    ensures KeyedByVisitedBars(w0.exits, Run(env, candles, w0, k).exits, candles, k)
  {
    if k > StrategyPeriod {
      var inv := (w: World<S>, i: nat) =>
        KeyedByVisitedBars(w0.entries, w.entries, candles, i) && KeyedByVisitedBars(w0.exits, w.exits, candles, i);
      forall w, i | StrategyPeriod <= i < k && inv(w, i)
        ensures inv(Step(env, w, candles, i), i + 1)
      {
        StepBuy(env, w, candles, i);
        StepExit(env, w, candles, i);
        var next := Step(env, w, candles, i);
        assert next.entries.Keys <= w.entries.Keys + {candles[i].datetime};
        assert next.exits.Keys <= w.exits.Keys + {candles[i].datetime};
      }
      RunPreserves(env, candles, w0, StrategyPeriod, k, inv);
    }
  }

  /**
   * The account's position count changes only by `buy_order` (by at most one)
   * and `sell_order` (never upwards).
   */
  ghost predicate CountsPositions(ledger: Ledger) {
    && (forall s, t, a, p :: ledger.buyOrder(s, t, a, p).openPositions <= s.openPositions + 1)
    && (forall s, t, p :: ledger.sellOrder(s, t, p).openPositions <= s.openPositions)
  }

  /**
   * The position ceiling holds on every bar: starting within it, the engine
   * never holds more than `max_concurrent_positions` positions at once.
   */
  lemma {:induction false} RunWithinCapacity<S>(env: Env<S>, candles: seq<Candle>, w0: World<S>, k: nat)
    requires k <= |candles| || k <= StrategyPeriod
    requires DecisionsDefined(candles) && CountsPositions(env.ledger)
    requires w0.acct.openPositions <= env.cfg.maxConcurrentPositions
    ensures Run(env, candles, w0, k).acct.openPositions <= env.cfg.maxConcurrentPositions
  {
    if k > StrategyPeriod {
      var max := env.cfg.maxConcurrentPositions;
      var inv := (w: World<S>, i: nat) => w.acct.openPositions <= max;
      forall w, i | StrategyPeriod <= i < k && inv(w, i)
        ensures inv(Step(env, w, candles, i), i + 1)
      {
        StepBuy(env, w, candles, i);
        StepExit(env, w, candles, i);
      }
      RunPreserves(env, candles, w0, StrategyPeriod, k, inv);
    }
  }

  /** Two series whose iterations agree on bars `StrategyPeriod .. k - 1` give the same run. */
  lemma {:induction false} RunAgrees<S>(env: Env<S>, c1: seq<Candle>, c2: seq<Candle>, w0: World<S>, k: nat)
    requires k <= |c1| && k <= |c2| && DecisionsDefined(c1) && DecisionsDefined(c2)
    requires forall w, i | StrategyPeriod <= i < k :: Step(env, w, c1, i) == Step(env, w, c2, i)
    ensures Run(env, c1, w0, k) == Run(env, c2, w0, k)
  {
    if k > StrategyPeriod {
      RunAgrees(env, c1, c2, w0, k - 1);
    }
  }

  /**
   * No look-ahead over a whole run: the state after the bars before `k` is
   * the same for any two series that agree on those bars.
   */
  lemma {:induction false} RunIgnoresFuture<S>(env: Env<S>, c1: seq<Candle>, c2: seq<Candle>, w0: World<S>, k: nat)
    requires k <= |c1| && k <= |c2| && DecisionsDefined(c1) && DecisionsDefined(c2)
    requires c1[..k] == c2[..k]
    ensures Run(env, c1, w0, k) == Run(env, c2, w0, k)
  {
    forall w, i | StrategyPeriod <= i < k
      ensures Step(env, w, c1, i) == Step(env, w, c2, i)
    {
      assert c1[..i + 1] == c1[..k][..i + 1] == c2[..k][..i + 1] == c2[..i + 1];
      StepIgnoresFuture(env, w, c1, c2, i);
    }
    RunAgrees(env, c1, c2, w0, k);
  }

  // ---------------------------------------------------------------------
  // A whole simulation from a fresh start.
  // ---------------------------------------------------------------------

  /** Fewer than eight bars: no iteration, no event, no equity value. */
  lemma ShortSeriesDoesNothing<S>(env: Env<S>, candles: seq<Candle>, acct: AccountState, balances: seq<real>)
    requires |candles| <= StrategyPeriod && DecisionsDefined(candles)
    ensures Simulate(env, candles, acct, balances) == InitialWorld(acct, env.envelope, balances)
  {
  }

  /**
   * A simulation appends to `ongoing_balance` one value per bar from bar 7
   * on and keeps the values it started with.
   */
  lemma SimulationEquity<S>(env: Env<S>, candles: seq<Candle>, acct: AccountState, balances: seq<real>)
    requires DecisionsDefined(candles)
    ensures EquityShape(balances, Simulate(env, candles, acct, balances).equity, Visited(|candles|))
  {
    RunEquity(env, candles, InitialWorld(acct, env.envelope, balances), |candles|);
  }

  /** Each appended value is the total balance after its bar. */
  lemma SimulationEquityValues<S>(env: Env<S>, candles: seq<Candle>, acct: AccountState, balances: seq<real>)
    requires DecisionsDefined(candles)
    ensures forall m :: StrategyPeriod < m <= |candles| ==>
              && |balances| + m - StrategyPeriod - 1 < |Simulate(env, candles, acct, balances).equity|
              && Simulate(env, candles, acct, balances).equity[|balances| + m - StrategyPeriod - 1]
              == Run(env, candles, InitialWorld(acct, env.envelope, balances), m).acct.balanceAbsolute
  {
    var w0 := InitialWorld(acct, env.envelope, balances);
    forall m | StrategyPeriod < m <= |candles|
      ensures && |balances| + m - StrategyPeriod - 1 < |Run(env, candles, w0, |candles|).equity|
              && Run(env, candles, w0, |candles|).equity[|balances| + m - StrategyPeriod - 1]
              == Run(env, candles, w0, m).acct.balanceAbsolute
    {
      RunEquityAt(env, candles, w0, m, |candles|);
    }
  }

  /** A simulation over more than seven bars ends marked to market at the last close. */
  lemma SimulationMarkedToMarket<S>(env: Env<S>, candles: seq<Candle>, acct: AccountState, balances: seq<real>)
    requires StrategyPeriod < |candles| && DecisionsDefined(candles)
    ensures MarkedToMarket(Simulate(env, candles, acct, balances).acct, candles[|candles| - 1].close, env.cfg.initialBalance)
  {
    RunMarkedToMarket(env, candles, InitialWorld(acct, env.envelope, balances), |candles|);
  }

  /**
   * The log of a simulation starts with `-1`, followed only by "BUY" and
   * "SELL" entries, at most two per bar.
   */
  lemma SimulationLog<S>(env: Env<S>, candles: seq<Candle>, acct: AccountState, balances: seq<real>)
    requires DecisionsDefined(candles)
    ensures LogShape([Start], Simulate(env, candles, acct, balances).log, Visited(|candles|))
    ensures Simulate(env, candles, acct, balances).log[0] == Start
  {
    RunLog(env, candles, InitialWorld(acct, env.envelope, balances), |candles|);
    var log := Simulate(env, candles, acct, balances).log;
    assert log[0] == log[..1][0];
  }
}
