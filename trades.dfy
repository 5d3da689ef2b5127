/**
 `buy_stock` and `sell_stock` as functions from the portfolio before the trade to
 the portfolio after it. A buy of a symbol not held yet reads its price from the
 market knowledge; a sell that asks for more than is held, or for a symbol that is
 not held, does nothing. Neither trade moves cash.
 */
module Trades {
  import opened Records
  import opened Dicts
  import opened Allocation

  /** The two portfolios agree on every symbol other than `stock`. */
  ghost predicate SameExcept(d: Dict<Holding>, e: Dict<Holding>, stock: string)
  {
    forall k :: k != stock ==> (k in d.items <==> k in e.items) && (k in d.items ==> d.items[k] == e.items[k])
  }

  /** `buy_stock(stock, amount)`. */
  function Buy(d: Dict<Holding>, market: Dict<Observation>, stock: string, amount: real): (r: Result<Dict<Holding>>)
    requires d.Valid()
    ensures r.Ok? <==> stock in d.items || stock in market.items
    ensures r.Err? ==> r.error == KeyError(stock)
    ensures r.Ok? ==> r.value.Valid() && SameExcept(d, r.value, stock) && stock in r.value.items
    ensures r.Ok? && stock in d.items ==>
      r.value.keys == d.keys &&
      r.value.items[stock] == d.items[stock].(quantity := d.items[stock].quantity + amount)
    ensures r.Ok? && stock !in d.items ==>
      r.value.keys == d.keys + [stock] &&
      r.value.items[stock] == NewHolding(amount, market.items[stock].currentPrice)
  {
    if stock in d.items then
      Ok(Put(d, stock, d.items[stock].(quantity := d.items[stock].quantity + amount)))
    else if stock in market.items then
      Ok(Put(d, stock, NewHolding(amount, market.items[stock].currentPrice)))
    else
      Err(KeyError(stock))
  }

  /** The availability check of `sell_stock`. */
  predicate CanSell(d: Dict<Holding>, stock: string, amount: real)
  {
    stock in d.items && d.items[stock].quantity >= amount
  }

  /** `sell_stock(stock, amount)`. */
  function Sell(d: Dict<Holding>, stock: string, amount: real): (r: Dict<Holding>)
    requires d.Valid()
    ensures r.Valid() && SameExcept(d, r, stock)
    ensures !CanSell(d, stock, amount) ==> r == d
    ensures CanSell(d, stock, amount) ==>
      (stock !in r.items <==> d.items[stock].quantity == amount)
    ensures CanSell(d, stock, amount) && stock !in r.items ==> r == Delete(d, stock)
    ensures CanSell(d, stock, amount) && stock in r.items ==>
      r.keys == d.keys &&
      r.items[stock] == d.items[stock].(quantity := d.items[stock].quantity - amount)
  {
    if stock in d.items && d.items[stock].quantity >= amount then
      var remaining := d.items[stock].quantity - amount;
      if remaining == 0.0 then Delete(d, stock)
      else Put(d, stock, d.items[stock].(quantity := remaining))
    else d
  }

  /** Buying any quantity of a symbol not yet held and then selling that quantity gives back the same portfolio. */
  lemma BuyThenSellRestores(d: Dict<Holding>, market: Dict<Observation>, stock: string, q: real)
    requires d.Valid() && stock !in d.items && stock in market.items
    ensures Buy(d, market, stock, q).Ok?
    ensures Sell(Buy(d, market, stock, q).value, stock, q) == d
  {
    PutThenDelete(d, stock, NewHolding(q, market.items[stock].currentPrice));
  }

  datatype Trade = BuyOrder(stock: string, amount: real) | SellOrder(stock: string, amount: real)

  function Execute(d: Dict<Holding>, market: Dict<Observation>, t: Trade): (r: Result<Dict<Holding>>)
    requires d.Valid()
    ensures r.Ok? ==> r.value.Valid()
  {
    match t
    case BuyOrder(stock, amount) => Buy(d, market, stock, amount)
    case SellOrder(stock, amount) => Ok(Sell(d, stock, amount))
  }

  /** A run of trades; the first one that raises ends the run with the portfolio as it then is. */
  function ExecuteAll(d: Dict<Holding>, market: Dict<Observation>, ts: seq<Trade>): (r: Dict<Holding>)
    requires d.Valid()
    ensures r.Valid()
    decreases |ts|
  {
    if ts == [] then d
    else match Execute(d, market, ts[0])
      case Err(_) => d
      case Ok(next) => ExecuteAll(next, market, ts[1..])
  }

  ghost predicate PositiveQuantities(d: Dict<Holding>)
  {
    forall k :: k in d.items ==> d.items[k].quantity > 0.0
  }

  /** No run of trades with non-negative amounts makes a quantity or a known price negative. */
  lemma {:induction false} TradesKeepNonNegative(d: Dict<Holding>, market: Dict<Observation>, ts: seq<Trade>)
    requires d.Valid() && NonNegative(d)
    requires forall i :: 0 <= i < |ts| ==> ts[i].amount >= 0.0
    ensures NonNegative(ExecuteAll(d, market, ts))
    decreases |ts|
  {
    if ts != [] {
      var r := Execute(d, market, ts[0]);
      if r.Ok? {
        assert NonNegative(r.value) by {
          forall k | k in r.value.items
            ensures r.value.items[k].quantity >= 0.0
            ensures r.value.items[k].currentPrice.Some? ==> r.value.items[k].currentPrice.value >= 0.0
          {
            if k != ts[0].stock {
              assert r.value.items[k] == d.items[k];
            }
          }
        }
        TradesKeepNonNegative(r.value, market, ts[1..]);
      }
    }
  }

  /** With positive amounts, every held symbol keeps a positive quantity: a holding that reaches zero is gone. */
  lemma {:induction false} TradesKeepPositive(d: Dict<Holding>, market: Dict<Observation>, ts: seq<Trade>)
    requires d.Valid() && PositiveQuantities(d)
    requires forall i :: 0 <= i < |ts| ==> ts[i].amount > 0.0
    ensures PositiveQuantities(ExecuteAll(d, market, ts))
    decreases |ts|
  {
    if ts != [] {
      var r := Execute(d, market, ts[0]);
      if r.Ok? {
        assert PositiveQuantities(r.value) by {
          forall k | k in r.value.items ensures r.value.items[k].quantity > 0.0 {
            if k != ts[0].stock {
              assert r.value.items[k] == d.items[k];
            }
          }
        }
        TradesKeepPositive(r.value, market, ts[1..]);
      }
    }
  }
}
