/** Values shared by the backtest engine, its risk gate and its strategy. */
module Types {

  /** A bar's datetime, as an ordered timestamp. */
  type Time = int

  datatype Option<T> = None | Some(value: T)

  /** The settings the engine reads from its configuration file, frozen for one run. */
  datatype Config = Config(
    initialBalance: real,          // account.initialBalance
    maxOrderValue: real,           // account.maxOrderValue
    maxConcurrentPositions: int,   // account.maxConcurrentPositions
    baseOrderValue: real,          // account.baseOrderValue
    buyMultiplier: real,           // multipliers.buyMultiplier
    stoplossAtrMultiplier: real,   // multipliers.stoplossAtrMultiplier (read by the tracker only)
    takeprofitAtrMultiplier: real, // multipliers.takeprofitAtrMultiplier (read by the tracker only)
    a: real,                       // strategy1.A
    b: real                        // strategy1.B
  )

  /** One price bar with the indicator values attached to it. */
  datatype Candle = Candle(
    datetime: Time,
    open: real,
    close: real,
    high: real,
    low: real,
    sma: real,
    rsi: real,
    atr: real,
    stdDev: real
  )

  /** The account fields the simulation loop reads or writes. */
  datatype AccountState = AccountState(
    uninvestedBalance: real,
    sharesOwned: real,
    openPositions: int,
    openPositionAmount: real,
    balanceAbsolute: real,
    profit: real
  )
}
