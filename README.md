# Backtest engine core, modelled in Dafny

This project models the simulation engine of a single-instrument trading
backtester:
- `indicators` in `core/order.py`. It builds a candle list from the price
  series, then walks the bars from index 7 to the end. On each bar it consults
  a risk gate (`core/Rules.py`) and, when the gate lets it, a "bearish
  comeback" entry signal (`core/strategies.py`). It records buys and sells,
  drives a stop-loss/take-profit tracker, marks the account to market and
  appends the total balance to an equity curve.

The model has six modules:

- `Types` (types.dfy): the configuration record, candles and the account's
  six fields as a value.
- `RiskGate` (rules.dfy): `Rules` as a datatype of payload and
  configuration. `balance_valid`, `max_positions_reached` and `validate` are
  pure member functions.
- `Strategies` (strategies.dfy): the signal as a function over a window, read
  with Python's negative indices, plus lemmas about the decision.
- `Collaborators` (collaborators.dfy): the account and the tracker, as
  classes whose fields the engine updates in place. Their own sources are not
  part of this model. Each class therefore carries its behaviour as a record
  of functions (`Ledger`, `Envelope<S>`), and each method applies that
  function to the current state. Every property proved below holds for every
  account and every tracker.
- `Order` (order.dfy): the engine.
  - `MarketData` is a class, because `ongoing_balance` is appended to in place.
  - `BuildCandles` is the candle-building loop.
  - `Buy` and `Sell` are the two helpers.
  - `TryBuy`, `CheckExit` and `ProcessBar` are the loop body.
  - `SimulateBars` is the bar loop, and `Indicators` is the whole function.
  - The loop's meaning is given by the pure functions `BuyPhase`,
    `ExitPhase`, `MarkToMarket`, `Step` (one iteration) and `Run` (the first
    `k` bars). `Indicators` is proved to leave the account, the tracker, both
    maps, the log and `ongoing_balance` exactly where `Simulate` says.
- `OrderProofs` (order_proofs.dfy): what a run guarantees, through an
  induction principle over the loop (`RunPreserves`). This covers:
  - how one iteration changes the log, the maps, the tracker and the account;
  - the equity curve and the mark to market;
  - where events are keyed;
  - the position ceiling;
  - that no bar's decision reads a later bar.

Four behaviours of the code that its names and comments do not suggest:
- `balance_valid` computes a clamped order size, but the engine never uses
  it. A buy is placed with the strategy's own `amount` (core/order.py:91-94).
  `Order.BuyPhase` does the same, and `OrderProofs.StepBuy` states it.
- The equity curve gains one value per visited bar. That makes
  `len(candles) - 7` values, not one per candle.
- The tracker's exit check runs only while `values_set` is true, not on
  every bar.
- A buy can have a negative size. The threshold `A - B * ln(8)` is negative
  for some of the values `utils/variables.py` draws for A and B. A ratio
  between that threshold and zero after a bearish bar then still fires. The
  gate clamps only the requested size, never the strategy's amount.
  `Strategies.NegativeThresholdBuysNegativeAmount` exhibits one such buy.

## Model

| member | source | states |
|---|---|---|
| RiskGate.Rules.BalanceValid | core/Rules.py:9-19 | the amount is no larger than the requested size, the order ceiling and the account's uninvested balance, and equals one of them (so it is their minimum); the check is valid exactly when all three are positive, that is, when the minimum is positive |
| RiskGate.Rules.MaxPositionsReached | core/Rules.py:21-24 | true exactly when one more position fits under `maxConcurrentPositions`, despite its name |
| RiskGate.Rules.Validate | core/Rules.py:26-31 | the two booleans are the two checks, and both pass exactly when the three sizes are positive and the position count is below the ceiling |
| RiskGate.ClampExample | core/Rules.py:9-19 | a request of 1000 under a ceiling of 500 with 300 uninvested is clamped to 300 and passes |
| RiskGate.ValidateIgnoresPayloadBalance | core/Rules.py:10-12 | the gate reads the balance from the account, never the payload's own `uninvested_balance` entry |
| Strategies.Ratio | core/strategies.py:8-11 | the ratio times the previous bar's deviation is the open-to-open drop from bar `-(period+1)` to bar `-2` |
| Strategies.BearishComeback | core/strategies.py:5-26 | a buy is priced at the last bar's open, follows a bearish previous bar, and its amount is the base order value times the ratio |
| Strategies.BuyIffScaledDrop | core/strategies.py:10-19 | with a positive deviation the signal fires exactly when the drop exceeds threshold × deviation and the previous bar is bearish; with a negative deviation, exactly when it falls short |
| Strategies.DecisionIgnoresCurrentBar | core/strategies.py:7-19 | two windows that differ only in the last bar reach the same decision with the same amount |
| Strategies.BuyAmountPositive | core/strategies.py:15-23 | with a non-negative threshold and a positive base order value, every buy has a positive amount |
| Strategies.NegativeThresholdBuysNegativeAmount | core/strategies.py:13-23 | with A = 3.4, B = 1.7 (both within the ranges of utils/variables.py:20-21) the threshold is negative, and a bearish window whose open rose by 0.1 over a unit deviation yields a buy of size -10 |
| Collaborators.Account.BuyOrder | core/order.py:55 | the account's new state is the ledger's buy applied to the old state, datetime, amount and price |
| Collaborators.Account.SellOrder | core/order.py:60 | the account's new state is the ledger's sell applied to the old state, datetime and price |
| Collaborators.StopLossTakeProfit.constructor | core/order.py:17 | a new tracker starts in its behaviour's initial state |
| Collaborators.StopLossTakeProfit.Update | core/order.py:95-99 | arming applies the behaviour's update to the price, ATR and datetime |
| Collaborators.StopLossTakeProfit.Exit | core/order.py:102 | the response and the new state are the behaviour's exit on the old state and the candle |
| Collaborators.StopLossTakeProfit.Remove | core/order.py:105 | disarming applies the behaviour's remove |
| Order.BuildCandles | core/order.py:38-51 | one candle per close; every field of candle `i` is the `i`-th entry of the matching series |
| Order.Buy | core/order.py:53-56 | records the price at the bar's datetime, places the buy with the given amount and price, appends exactly one "BUY" |
| Order.Sell | core/order.py:58-61 | records the price at the bar's datetime, places the sell, appends exactly one "SELL" |
| Order.RunNext | core/order.py:75 | one more bar extends a run by exactly one iteration on that bar |
| Order.TryBuy | core/order.py:77-99 | rebuilding the payload gives the gate for the current account; the account, tracker, entries and log end where the gate-then-strategy phase says |
| Order.CheckExit | core/order.py:101-105 | the account, tracker, exits and log end where the exit phase says: untouched unless armed; on a sell, recorded, executed and disarmed |
| Order.ProcessBar | core/order.py:77-111 | one loop iteration leaves every piece of engine state, and `ongoing_balance`, where `Step` says |
| Order.SimulateBars | core/order.py:71-111 | the loop over bars 7 to the end leaves all state where `Run` says for the whole series |
| Order.Indicators | core/order.py:11-121 | the whole engine: account, tracker, entries, exits, log and `ongoing_balance` equal the simulation of the candle list built from the data |
| OrderProofs.WindowShape | core/order.py:88-90 | the strategy's window is the 8 bars `i-7..i` in order, its last bar is bar `i`, its `-2` bar is bar `i-1` and its origin is bar `i-7` |
| OrderProofs.SignalAtBars | core/order.py:88-90 | on bar `i` the engine gets a buy exactly when the drop from bar `i-7`'s open to bar `i-1`'s, over bar `i-1`'s deviation, beats the threshold and bar `i-1` is bearish; the buy is priced at bar `i`'s open and sized by that ratio |
| OrderProofs.SignalIgnoresFuture | core/order.py:88-90 | the decision on bar `i` is the same for any two series that agree up to bar `i` |
| OrderProofs.StepLog | core/order.py:84-105 | an iteration appends "BUY" exactly when the gate passes and the strategy fires, then "SELL" exactly when the armed tracker says sell, and nothing else |
| OrderProofs.StepBuy | core/order.py:53-56 | a buy places the strategy's amount and price (not the clamped size), records that price at the bar's datetime and arms the tracker with the price, the bar's ATR and datetime; without a buy nothing changes |
| OrderProofs.StepExit | core/order.py:101-105 | an unarmed tracker is not consulted: tracker, exits, cash, shares and position count stay as the buy phase left them; on a hold only the tracker moves, to the state `exit` returned; a sell is priced by the tracker, recorded at the bar's datetime, settles cash, shares and position count through the ledger's `sell_order`, and is followed by `remove()`; exits never touch the entries |
| OrderProofs.StepMarksToMarket | core/order.py:107-111 | after every iteration the open position is valued at the bar's close, the total balance is cash plus that value, the profit is the total balance minus the initial balance, and exactly that total is appended to `ongoing_balance` |
| OrderProofs.GateBlocksBuy | core/order.py:84-87 | at the position ceiling, or with nothing uninvested, the bar produces no buy and no entry whatever the strategy says |
| OrderProofs.StepIgnoresFuture | core/order.py:77-111 | an iteration on bar `i` reads no later bar |
| OrderProofs.RunPreserves | core/order.py:75 | a property that holds after bar `m` and that every later iteration preserves holds after bar `k` |
| OrderProofs.RunEquity | core/order.py:111 | the equity curve gains exactly one value per visited bar and keeps what it had |
| OrderProofs.RunEquityExtends | core/order.py:111 | a later equity curve extends every earlier one |
| OrderProofs.RunEquityAt | core/order.py:107-111 | the value appended on bar `m-1` is the total balance after that bar, and stays in place afterwards |
| OrderProofs.RunMarkedToMarket | core/order.py:107-110 | after at least one bar the account is marked to market at the last close |
| OrderProofs.RunLog | core/order.py:53-61 | the log keeps its start and only ever gains "BUY" and "SELL", at most two per bar |
| OrderProofs.RunEventsAtVisitedBars | core/order.py:53-61 | entries and exits are keyed only by datetimes of visited bars |
| OrderProofs.RunWithinCapacity | core/order.py:84-94 | with an account whose buy adds at most one position and whose sell adds none, a run that starts within the ceiling never exceeds `maxConcurrentPositions` |
| OrderProofs.RunAgrees | core/order.py:75-111 | two series whose iterations agree on the visited bars give the same run |
| OrderProofs.RunIgnoresFuture | core/order.py:75-111 | no look-ahead: the state after the first `k` bars is the same for any two series that agree on those bars |
| OrderProofs.ShortSeriesDoesNothing | core/order.py:73-75 | with 7 or fewer candles there is no iteration, no event and no equity value |
| OrderProofs.SimulationEquity | core/order.py:75-111 | a simulation appends `len(candles) - 7` values (or none) to `ongoing_balance` and keeps the ones it started with |
| OrderProofs.SimulationEquityValues | core/order.py:107-111 | each appended value is the total balance after its bar |
| OrderProofs.SimulationMarkedToMarket | core/order.py:107-110 | a simulation over more than seven bars ends marked to market at the last close |
| OrderProofs.SimulationLog | core/order.py:15-61 | a simulation's log starts with `-1` followed only by "BUY" and "SELL" |

## Definitions

The contracts above are stated through these functions, which define the
loop's meaning rather than carry contracts of their own:

- `Strategies.Threshold` (core/strategies.py:13-15): `A - B * ln(period + 1)`, with the logarithm supplied as an input.
- `Order.GateAt` (core/order.py:63-65 and 77-82): the gate rebuilt on a bar from the current account. The requested size is `baseOrderValue * buyMultiplier` (`Order.InitialBuyAmount`).
- `Order.Window` and `Order.SignalAt` (core/order.py:87-90): the eight-bar slice `candles[i-7:i+1]` and the strategy's answer on it.
- `Order.BuyPhase` (core/order.py:84-99): an unchanged state unless the gate passes and the strategy says buy. On a buy it applies the ledger's buy with the strategy's amount and price, records the entry, appends "BUY" and arms the tracker.
- `Order.ExitPhase` (core/order.py:101-105): an unchanged state unless the tracker is armed. On a hold only the tracker's own state moves. On a sell it applies the ledger's sell, records the exit, appends "SELL" and disarms the tracker.
- `Order.MarkToMarket` (core/order.py:107-111): the three derived account fields at the bar's close, with the total balance appended to the equity curve.
- `Order.Step` (core/order.py:77-111): one iteration, which is the three phases above in order.
- `Order.Run` (core/order.py:75): the iterations for bars 7 to `k - 1`, in order.
- `Order.Simulate` (core/order.py:13-17 and 75-111): `Run` over the whole series from empty maps, the log `[-1]` and a fresh tracker.

## Left out

- `api/fetch.py`: the download and its retries, and the settings file read. The settings are the immutable `Config` record, read once. The source rereads the same file in `Rules` and in every strategy call.
- `utils/variables.py`: random parameter generation and JSON persistence, which are nondeterministic I/O. `app.py`: the web UI.
- `math.log(period + 1)` is not modelled. Its value is the input `lnPeriodPlusOne`.
- Floating point: all prices and balances are exact `real`s. A zero standard deviation (a `ZeroDivisionError` in the source) is excluded by `DecisionsDefined`.
- Order.Indicators, Order.SimulateBars, Order.Run: these require a nonzero deviation on every bar the strategy could read (bars 6 to n-2). The source divides only on bars where the gate passed.
- Order.Indicators: requires every series to be at least as long as `closes`. The source would raise `IndexError` otherwise, and that error is not modelled.
- `convert.series_to_lists` is not part of this model. The five price lists are fields of `MarketData`.
- `indicator.add` is not part of this model. It is taken to insert the key into the map the engine holds. The `buy`/`sell` closures only rebind a local name, so a copying `add` would leave the engine's maps unchanged.
- The pandas `Series` built from the maps at core/order.py:113-114 is output formatting. The maps are returned directly.
- The stop-loss and take-profit region lists of core/order.py:119-120 live inside the tracker's state `S`. `Indicators` returns the tracker itself.
- `Indicators` also returns the log. In the source it is a local list.
- The internals of the account and the tracker (`core/Account.py`, `core/StopLossTakeProfit.py`) are not part of this model. So the envelope bounds, the fill arithmetic, `InsufficientFundsError` and "at most one open position" are not stated. `OrderProofs.RunWithinCapacity` states the position ceiling under an explicit assumption about the ledger.
- The first payload's unused `"z"` entry is dropped. Its missing `uninvested_balance` is `None`.
- The payload holds the account object itself. The gate only reads it, so the model passes a snapshot of the account's fields.
- The closures that capture the loop index `i` are modelled by passing the current candle explicitly.
