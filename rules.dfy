/**
 * The risk gate consulted before every possible entry: it clamps the requested
 * order size and checks the open-position ceiling. Every member is a pure
 * function of the payload (rebuilt by the engine on every bar) and of the
 * configuration read once, when the gate is constructed.
 */
module RiskGate {
  import opened Types

  /**
   * What the engine hands to the gate: the requested order size, the
   * uninvested balance at the time the payload was built (absent from the
   * payload built before the loop) and the account itself.
   */
  datatype Payload = Payload(initialBuyAmount: real, uninvestedBalance: Option<real>, account: AccountState)

  /** Result of the balance check: whether a buy is affordable, and the clamped size. */
  datatype BalanceResult = BalanceResult(valid: bool, amount: real)

  /** Result of `validate`: one boolean per check, keyed as in the source. */
  datatype Validation = Validation(balanceValid: bool, maxPositionsReached: bool) {
    /** `all(validate_response.values())`: the engine may buy only when every check passed. */
    predicate All() {
      balanceValid && maxPositionsReached
    }
  }

  /** Python's three-argument `min`. */
  function Min3(x: real, y: real, z: real): real {
    var m := if y < x then y else x;
    if z < m then z else m
  }

  datatype Rules = Rules(payload: Payload, config: Config) {

    /**
     * Clamps the requested size to the order ceiling and to the cash on hand.
     * The amount is the least of the three, and the check passes exactly when
     * all three are positive. The size is read from the account object, not
     * from the payload's own `uninvested_balance` entry.
     */
    function BalanceValid(): (r: BalanceResult)
      ensures r.amount <= payload.initialBuyAmount
      ensures r.amount <= config.maxOrderValue
      ensures r.amount <= payload.account.uninvestedBalance
      ensures r.amount == payload.initialBuyAmount
           || r.amount == config.maxOrderValue
           || r.amount == payload.account.uninvestedBalance
      ensures r.valid <==> (payload.initialBuyAmount > 0.0
                            && config.maxOrderValue > 0.0
                            && payload.account.uninvestedBalance > 0.0)
    {
      var amount := Min3(payload.initialBuyAmount, config.maxOrderValue, payload.account.uninvestedBalance);
      BalanceResult(amount > 0.0, amount)
    }

    /**
     * Despite its name, true means that one more position still fits under
     * the configured ceiling.
     */
    function MaxPositionsReached(): (r: bool)
      ensures r <==> payload.account.openPositions + 1 <= config.maxConcurrentPositions
    {
      payload.account.openPositions < config.maxConcurrentPositions
    }

    /** Both checks; together they pass exactly when every limit leaves room for a buy. */
    function Validate(): (v: Validation)
      ensures v.balanceValid == BalanceValid().valid
      ensures v.maxPositionsReached == MaxPositionsReached()
      ensures v.All() <==> (payload.initialBuyAmount > 0.0
                            && config.maxOrderValue > 0.0
                            && payload.account.uninvestedBalance > 0.0
                            && payload.account.openPositions < config.maxConcurrentPositions)
    {
      Validation(BalanceValid().valid, MaxPositionsReached())
    }
  }

  /**
   * A worked example: a request of 1000 under a ceiling of 500
   * with 300 uninvested is clamped to 300 and passes.
   */
  lemma ClampExample(acct: AccountState, cfg: Config)
    requires acct.uninvestedBalance == 300.0 && cfg.maxOrderValue == 500.0
    ensures Rules(Payload(1000.0, Some(300.0), acct), cfg).BalanceValid() == BalanceResult(true, 300.0)
  {
  }

  /**
   * The gate depends on the payload only through the requested size and the
   * account: the payload's own copy of the balance is never consulted.
   */
  lemma ValidateIgnoresPayloadBalance(p: Payload, q: Payload, cfg: Config)
    requires p.initialBuyAmount == q.initialBuyAmount && p.account == q.account
    ensures Rules(p, cfg).Validate() == Rules(q, cfg).Validate()
    ensures Rules(p, cfg).BalanceValid() == Rules(q, cfg).BalanceValid()
  {
  }
}
