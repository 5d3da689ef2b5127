/**
 The records the persona's portfolio logic works on, and the two exceptions
 (KeyError, ZeroDivisionError) that its dictionary lookups and divisions can raise.

 Every holding and observation in the Python code is a plain dictionary whose keys
 may be missing; the keys that the code relies on but that not every record carries
 (`current_price`, `desired_allocation`, `should_rebalance`, `risk_score`,
 `is_overvalued`) are `Option` fields here, so that a lookup of a missing key can
 be modelled as the KeyError it raises.
 */
module Records {

  datatype Option<T> = None | Some(value: T)

  /** The exceptions raised by the portfolio code: a missing dictionary key, or a division by zero. */
  datatype Error = KeyError(key: string) | ZeroDivisionError

  /** A value, or the exception that was raised instead of computing it. */
  datatype Result<T> = Ok(value: T) | Err(error: Error)

  /** One entry of `current_investments`. */
  datatype Holding = Holding(
    quantity: real,
    purchasePrice: real,
    currentPrice: Option<real>,
    desiredAllocation: Option<real>,
    shouldRebalance: Option<bool>,
    riskScore: Option<real>)

  /** One entry of `market_knowledge`. */
  datatype Observation = Observation(
    currentPrice: real,
    sentiment: real,
    isUndervalued: bool,
    isOvervalued: Option<bool>)

  /** The record `buy_stock` inserts for a symbol it does not hold yet: only a quantity and a purchase price. */
  function NewHolding(amount: real, price: real): Holding
  {
    Holding(amount, price, None, None, None, None)
  }
}
