/**
 The `Persona` object: its portfolio and market knowledge are dictionaries that
 `buy_stock`, `sell_stock`, `rebalance_stock` and `manage_portfolio` update in
 place. Each method is proved to leave the portfolio as the corresponding function
 of module Management or Trades says, and none of them touches the cash reserves.
 */
module Personas {
  import opened Records
  import opened Dicts
  import opened Allocation
  import opened Policy
  import opened Trades
  import opened Management

  /** `initialize_market_knowledge`: the fixed seed observations. */
  function SeedKnowledge(): (m: Dict<Observation>)
    ensures m.Valid()
  {
    Dict(["StockA", "StockB"], map[
      "StockA" := Observation(100.0, 0.6, true, None),
      "StockB" := Observation(150.0, 0.4, false, None)])
  }

  class Persona {
    var name: string
    var role: string
    var currentInvestments: Dict<Holding>
    var marketKnowledge: Dict<Observation>
    var riskTolerance: real
    var cashReserves: real

    ghost predicate Valid()
      reads this
    {
      currentInvestments.Valid() && marketKnowledge.Valid()
    }

    /** `__init__` with no saved portfolio: the seed market knowledge and an empty portfolio. */
    constructor (name: string, role: string)
      ensures Valid()
      ensures this.name == name && this.role == role
      ensures currentInvestments == Empty() && marketKnowledge == SeedKnowledge()
      ensures riskTolerance == 0.5 && cashReserves == 100000.0
    {
      this.name := name;
      this.role := role;
      currentInvestments := Empty();
      marketKnowledge := SeedKnowledge();
      riskTolerance := 0.5;
      cashReserves := 100000.0;
    }

    /** `buy_stock(stock, amount)`; `raised` is the KeyError of a symbol found neither in the portfolio nor in the market knowledge. */
    method BuyStock(stock: string, amount: real) returns (raised: Option<Error>)
      requires Valid()
      modifies this`currentInvestments
      ensures Valid()
      ensures Run(currentInvestments, raised) == Settle(old(currentInvestments), Buy(old(currentInvestments), marketKnowledge, stock, amount))
      ensures cashReserves == old(cashReserves)
    {
      raised := None;
      if stock in currentInvestments.items {
        var info := currentInvestments.items[stock];
        currentInvestments := Put(currentInvestments, stock, info.(quantity := info.quantity + amount));
      } else if stock in marketKnowledge.items {
        currentInvestments := Put(currentInvestments, stock, NewHolding(amount, marketKnowledge.items[stock].currentPrice));
      } else {
        raised := Some(KeyError(stock));
      }
    }

    /** `sell_stock(stock, amount)`: a sell that fails the availability check changes nothing and reports nothing. */
    method SellStock(stock: string, amount: real)
      requires Valid()
      modifies this`currentInvestments
      ensures Valid()
      ensures currentInvestments == Sell(old(currentInvestments), stock, amount)
      ensures cashReserves == old(cashReserves)
    {
      if stock in currentInvestments.items && currentInvestments.items[stock].quantity >= amount {
        var info := currentInvestments.items[stock];
        var before := currentInvestments;
        currentInvestments := Put(currentInvestments, stock, info.(quantity := info.quantity - amount));
        if currentInvestments.items[stock].quantity == 0.0 {
          PutThenDeleteHeld(before, stock, info.(quantity := 0.0));
          currentInvestments := Delete(currentInvestments, stock);
        }
      }
    }

    /** `rebalance_stock(stock, info)`. */
    method RebalanceStock(stock: string, info: Holding) returns (raised: Option<Error>)
      requires Valid()
      modifies this`currentInvestments
      ensures Valid()
      ensures Run(currentInvestments, raised) == Settle(old(currentInvestments), Rebalance(old(currentInvestments), marketKnowledge, stock, info))
      ensures cashReserves == old(cashReserves)
    {
      raised := None;
      match info.desiredAllocation {
        case None =>
          raised := Some(KeyError("desired_allocation"));
        case Some(desiredAllocation) =>
          match CurrentAllocation(currentInvestments, stock) {
            case Err(e) =>
              raised := Some(e);
            case Ok(currentAllocation) =>
              if currentAllocation < desiredAllocation {
                match AmountToBuy(currentInvestments, stock, desiredAllocation, currentAllocation) {
                  case Err(e) => raised := Some(e);
                  case Ok(amountToBuy) => raised := BuyStock(stock, amountToBuy);
                }
              } else if currentAllocation > desiredAllocation {
                match AmountToSell(currentInvestments, stock, desiredAllocation, currentAllocation) {
                  case Err(e) => raised := Some(e);
                  case Ok(amountToSell) => SellStock(stock, amountToSell);
                }
              }
          }
      }
    }

    /**
     `manage_portfolio`: rebalance every holding flagged for it, then buy or sell each
     symbol of the market knowledge, with `amounts[symbol]` as the trade amount. Both
     loops run over a snapshot of the keys; an exception ends the cycle.
     */
    method ManagePortfolio(amounts: map<string, real>) returns (raised: Option<Error>)
      requires Valid()
      requires forall k :: k in marketKnowledge.items ==> k in amounts
      modifies this`currentInvestments
      ensures Valid()
      ensures Run(currentInvestments, raised) == ManageCycle(old(currentInvestments), marketKnowledge, amounts)
      ensures cashReserves == old(cashReserves)
    {
      raised := RebalanceHoldings();
      if raised.None? {
        raised := TradeOnKnowledge(amounts);
      }
    }

    /** The rebalance loop of `manage_portfolio`, over a snapshot of the holdings' keys. */
    method RebalanceHoldings() returns (raised: Option<Error>)
      requires Valid()
      modifies this`currentInvestments
      ensures Valid()
      ensures Run(currentInvestments, raised) == RebalanceAll(old(currentInvestments), marketKnowledge, old(currentInvestments).keys)
    {
      var stocks := currentInvestments.keys;
      var i := 0;
      while i < |stocks|
        invariant 0 <= i <= |stocks| && Valid()
        invariant RebalanceAll(old(currentInvestments), marketKnowledge, stocks) == RebalanceAll(currentInvestments, marketKnowledge, stocks[i..])
      {
        var stock := stocks[i];
        assert stocks[i..][1..] == stocks[i + 1..];
        raised := RebalanceFlagged(stock);
        if raised.Some? {
          return;
        }
        i := i + 1;
      }
      raised := None;
    }

    /** One iteration of the rebalance loop: rebalance `stock` if its `should_rebalance` flag is set. */
    method RebalanceFlagged(stock: string) returns (raised: Option<Error>)
      requires Valid()
      modifies this`currentInvestments
      ensures Valid()
      ensures Run(currentInvestments, raised) == Settle(old(currentInvestments), RebalanceStep(old(currentInvestments), marketKnowledge, stock))
      ensures cashReserves == old(cashReserves)
    {
      if stock !in currentInvestments.items {
        return Some(KeyError(stock));
      }
      var info := currentInvestments.items[stock];
      match info.shouldRebalance {
        case None =>
          raised := Some(KeyError("should_rebalance"));
        case Some(shouldRebalance) =>
          if shouldRebalance {
            raised := RebalanceStock(stock, info);
          } else {
            raised := None;
          }
      }
    }

    /** The trading loop of `manage_portfolio`, over the symbols of the market knowledge in insertion order. */
    method TradeOnKnowledge(amounts: map<string, real>) returns (raised: Option<Error>)
      requires Valid()
      requires forall k :: k in marketKnowledge.items ==> k in amounts
      modifies this`currentInvestments
      ensures Valid()
      ensures Run(currentInvestments, raised) == TradeAll(old(currentInvestments), marketKnowledge, marketKnowledge.keys, amounts)
    {
      var symbols := marketKnowledge.keys;
      var i := 0;
      while i < |symbols|
        invariant 0 <= i <= |symbols| && Valid()
        invariant TradeAll(old(currentInvestments), marketKnowledge, symbols, amounts) == TradeAll(currentInvestments, marketKnowledge, symbols[i..], amounts)
      {
        var stock := symbols[i];
        assert symbols[i..][1..] == symbols[i + 1..];
        raised := TradeSymbol(stock, amounts[stock]);
        if raised.Some? {
          return;
        }
        i := i + 1;
      }
      raised := None;
    }

    /** One iteration of the trading loop: `should_buy`, then `should_sell` only when the buy signal is false. */
    method TradeSymbol(stock: string, amount: real) returns (raised: Option<Error>)
      requires Valid() && stock in marketKnowledge.items
      modifies this`currentInvestments
      ensures Valid()
      ensures Run(currentInvestments, raised) == Settle(old(currentInvestments), TradeStep(old(currentInvestments), marketKnowledge, stock, amount))
      ensures cashReserves == old(cashReserves)
    {
      var marketInfo := marketKnowledge.items[stock];
      if ShouldBuy(marketInfo) {
        raised := BuyStock(stock, amount);
      } else {
        match ShouldSell(marketInfo) {
          case Err(e) =>
            raised := Some(e);
          case Ok(shouldSell) =>
            if shouldSell {
              SellStock(stock, amount);
            }
            raised := None;
        }
      }
    }
  }
}
