/**
 * The two stateful collaborators the simulation loop drives: the account
 * (core/Account.py) and the stop-loss/take-profit tracker
 * (core/StopLossTakeProfit.py). Neither file is part of this model, so
 * neither class invents its internals: each carries its behaviour as a record
 * of functions, fixed when the object is built, and each method applies the
 * corresponding function to the object's current state. Whatever is proved
 * about the loop therefore holds for every account and every tracker.
 */
module Collaborators {
  import opened Types

  /** What `buy_order` and `sell_order` do to the account's fields. */
  datatype Ledger = Ledger(
    buyOrder: (AccountState, Time, real, real) -> AccountState,   // (state, datetime, amount, price)
    sellOrder: (AccountState, Time, real) -> AccountState          // (state, datetime, price)
  )

  class Account {
    var uninvestedBalance: real
    var sharesOwned: real
    var openPositions: int
    var openPositionAmount: real
    var balanceAbsolute: real
    var profit: real
    const ledger: Ledger

    /** The fields as one value. */
    function State(): AccountState
      reads this
    {
      AccountState(uninvestedBalance, sharesOwned, openPositions, openPositionAmount, balanceAbsolute, profit)
    }

    constructor (s: AccountState, ledger: Ledger)
      ensures State() == s && this.ledger == ledger
    {
      uninvestedBalance := s.uninvestedBalance;
      sharesOwned := s.sharesOwned;
      openPositions := s.openPositions;
      openPositionAmount := s.openPositionAmount;
      balanceAbsolute := s.balanceAbsolute;
      profit := s.profit;
      this.ledger := ledger;
    }

    method SetState(s: AccountState)
      modifies this
      ensures State() == s
    {
      uninvestedBalance, sharesOwned, openPositions := s.uninvestedBalance, s.sharesOwned, s.openPositions;
      openPositionAmount, balanceAbsolute, profit := s.openPositionAmount, s.balanceAbsolute, s.profit;
    }

    /** `account.buy_order(datetime, amount, price)`. */
    method BuyOrder(datetime: Time, amount: real, price: real)
      modifies this
      ensures State() == ledger.buyOrder(old(State()), datetime, amount, price)
    {
      SetState(ledger.buyOrder(State(), datetime, amount, price));
    }

    /** `account.sell_order(datetime, price)`. */
    method SellOrder(datetime: Time, price: real)
      modifies this
      ensures State() == ledger.sellOrder(old(State()), datetime, price)
    {
      SetState(ledger.sellOrder(State(), datetime, price));
    }
  }

  /** The tracker's answer to `exit(candle)`: hold, or sell at a price. */
  datatype ExitResponse = Hold | Sell(price: real)

  /**
   * What the tracker does, over its own state `S`: the state a fresh tracker
   * starts in, `update(price, atr, datetime)`, `exit(candle)` (which may also
   * change the state), `remove()` and the flag `values_set`.
   */
  datatype Envelope<!S> = Envelope(
    init: S,
    update: (S, real, real, Time) -> S,
    exit: (S, Candle) -> (ExitResponse, S),
    remove: S -> S,
    valuesSet: S -> bool
  )

  class StopLossTakeProfit<S> {
    var state: S
    const behaviour: Envelope<S>

    /** `StopLossTakeProfit()`. */
    constructor (behaviour: Envelope<S>)
      ensures this.behaviour == behaviour && state == behaviour.init
    {
      this.behaviour := behaviour;
      state := behaviour.init;
    }

    /** `values_set`: the tracker holds bounds for an open position. */
    predicate ValuesSet()
      reads this
    {
      behaviour.valuesSet(state)
    }

    /** `update(price, atr, datetime)`. */
    method Update(price: real, atr: real, datetime: Time)
      modifies this
      ensures state == behaviour.update(old(state), price, atr, datetime)
    {
      state := behaviour.update(state, price, atr, datetime);
    }

    /** `exit(candle)`. */
    method Exit(candle: Candle) returns (response: ExitResponse)
      modifies this
      ensures (response, state) == behaviour.exit(old(state), candle)
    {
      var next;
      response, next := behaviour.exit(state, candle).0, behaviour.exit(state, candle).1;
      state := next;
    }

    /** `remove()`. */
    method Remove()
      modifies this
      ensures state == behaviour.remove(old(state))
    {
      state := behaviour.remove(state);
    }
  }
}
