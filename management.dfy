/**
 `rebalance_stock` and the two loops of `manage_portfolio`, as functions of the
 portfolio before them. An exception raised part-way through the cycle ends it with
 the trades done so far in place, so the cycle yields the portfolio reached and the
 exception raised, if any.
 */
module Management {
  import opened Records
  import opened Dicts
  import opened Allocation
  import opened Policy
  import opened Trades

  /** Where a run of mutating calls ends: the portfolio reached, and the exception that stopped it, if any. */
  datatype Run = Run(investments: Dict<Holding>, raised: Option<Error>)

  /** A call that either replaces the portfolio or raises before changing it. */
  function Settle(before: Dict<Holding>, r: Result<Dict<Holding>>): Run
  {
    match r
    case Ok(after) => Run(after, None)
    case Err(e) => Run(before, Some(e))
  }

  /** `rebalance_stock(stock, info)`: buy toward a higher target, sell toward a lower one, else do nothing. */
  function Rebalance(d: Dict<Holding>, market: Dict<Observation>, stock: string, info: Holding): (r: Result<Dict<Holding>>)
    requires d.Valid()
    ensures r.Ok? ==> r.value.Valid()
  {
    match info.desiredAllocation
    case None => Err(KeyError("desired_allocation"))
    case Some(desired) =>
      match CurrentAllocation(d, stock)
      case Err(e) => Err(e)
      case Ok(current) =>
        if current < desired then
          match AmountToBuy(d, stock, desired, current)
          case Err(e) => Err(e)
          case Ok(amount) => Buy(d, market, stock, amount)
        else if current > desired then
          match AmountToSell(d, stock, desired, current)
          case Err(e) => Err(e)
          case Ok(amount) => Ok(Sell(d, stock, amount))
        else Ok(d)
  }

  /**
   With a positive total value and price, rebalancing a held stock toward a target
   share `desired` >= 0 buys iff its share is below the target, sells iff it is above,
   and leaves the portfolio alone iff they are equal. Either trade brings its market
   value to exactly `desired` times the total value before the trade; the sell never
   fails its availability check, and removes the holding iff the target is 0.
   */
  lemma RebalanceReachesTarget(d: Dict<Holding>, market: Dict<Observation>, stock: string, info: Holding)
    requires d.Valid() && TotalValue(d).Ok? && TotalValue(d).value > 0.0
    requires stock in d.items && d.items[stock].currentPrice.value > 0.0
    requires info.desiredAllocation.Some? && info.desiredAllocation.value >= 0.0
    ensures CurrentAllocation(d, stock).Ok?
    ensures Rebalance(d, market, stock, info).Ok?
    ensures SameExcept(d, Rebalance(d, market, stock, info).value, stock)
    ensures var r := Rebalance(d, market, stock, info).value;
            var current := CurrentAllocation(d, stock).value;
            var desired := info.desiredAllocation.value;
            var total := TotalValue(d).value;
            var price := d.items[stock].currentPrice.value;
            var q := d.items[stock].quantity;
            && (stock in r.items ==> r.items[stock] == d.items[stock].(quantity := desired * total / price))
            && (stock !in r.items <==> desired == 0.0 && current > desired)
            && (current < desired ==> stock in r.items && r.items[stock].quantity > q)
            && (current > desired ==> stock !in r.items || r.items[stock].quantity < q)
            && (current == desired <==> r == d)
  {
    var total := TotalValue(d).value;
    var h := d.items[stock];
    var price := h.currentPrice.value;
    var desired := info.desiredAllocation.value;
    var current := CurrentAllocation(d, stock).value;
    var target := desired * total / price;
    RebalanceTrade(d, market, stock, info, total, price, current, desired, target);
    if current < desired {
      assert h.quantity + (target - h.quantity) == target;
    } else if current > desired {
      assert CanSell(d, stock, h.quantity - target);
      assert h.quantity - (h.quantity - target) == target;
    }
  }

  /** The trade a rebalance makes, with its amount written as the distance to the target quantity. */
  lemma RebalanceTrade(d: Dict<Holding>, market: Dict<Observation>, stock: string, info: Holding,
                       total: real, price: real, current: real, desired: real, target: real)
    requires d.Valid() && TotalValue(d) == Ok(total) && total > 0.0
    requires stock in d.items && d.items[stock].currentPrice == Some(price) && price > 0.0
    requires info.desiredAllocation == Some(desired) && desired >= 0.0
    requires target == desired * total / price
    ensures CurrentAllocation(d, stock) == Ok(current) ==>
      && (current < desired <==> d.items[stock].quantity < target)
      && (current == desired <==> d.items[stock].quantity == target)
      && target >= 0.0 && (target == 0.0 <==> desired == 0.0)
      && (current < desired ==> Rebalance(d, market, stock, info) == Buy(d, market, stock, target - d.items[stock].quantity))
      && (current > desired ==> Rebalance(d, market, stock, info) == Ok(Sell(d, stock, d.items[stock].quantity - target)))
      && (current == desired ==> Rebalance(d, market, stock, info) == Ok(d))
    ensures CurrentAllocation(d, stock).Ok?
  {
    var q := d.items[stock].quantity;
    assert CurrentAllocation(d, stock).Ok?;
    assert CurrentAllocation(d, stock).value == q * price / total;
    if CurrentAllocation(d, stock) == Ok(current) {
      TargetArithmetic(q, price, total, current, desired, target);
      if current < desired {
        assert AmountToBuy(d, stock, desired, current).Ok?;
        assert AmountToBuy(d, stock, desired, current).value == (desired * total - current * total) / price;
      } else if current > desired {
        assert AmountToSell(d, stock, desired, current).Ok?;
        assert AmountToSell(d, stock, desired, current).value == (current * total - desired * total) / price;
      }
    }
  }

  /** The arithmetic behind rebalancing: either trade lands the quantity on `target`. */
  lemma TargetArithmetic(q: real, price: real, total: real, current: real, desired: real, target: real)
    requires price > 0.0 && total > 0.0 && current == q * price / total && desired >= 0.0
    requires target == desired * total / price
    ensures (desired * total - current * total) / price == target - q
    ensures (current * total - desired * total) / price == q - target
    ensures current < desired <==> q < target
    ensures current == desired <==> q == target
    ensures target >= 0.0 && (target == 0.0 <==> desired == 0.0)
  {
    assert target * price == desired * total;
    assert current * total == q * price;
    assert current < desired <==> current * total < desired * total;
    assert q < target <==> q * price < target * price;
    assert desired * total >= 0.0;
  }

  /** The holdings are sound: no negative quantity or known price, and no negative target share. */
  ghost predicate Sound(d: Dict<Holding>)
  {
    NonNegative(d) &&
    forall k :: k in d.items && d.items[k].desiredAllocation.Some? ==> d.items[k].desiredAllocation.value >= 0.0
  }

  /** A portfolio that differs from a sound one only in the quantity of one stock, and not below zero, is sound. */
  lemma QuantityChangeKeepsSound(d: Dict<Holding>, r: Dict<Holding>, stock: string, q: real)
    requires Sound(d) && SameExcept(d, r, stock) && q >= 0.0
    requires stock in r.items ==> stock in d.items && r.items[stock] == d.items[stock].(quantity := q)
    ensures Sound(r)
  {
    forall k | k in r.items
      ensures r.items[k].quantity >= 0.0
      ensures r.items[k].currentPrice.Some? ==> r.items[k].currentPrice.value >= 0.0
      ensures r.items[k].desiredAllocation.Some? ==> r.items[k].desiredAllocation.value >= 0.0
    {
      if k != stock {
        assert r.items[k] == d.items[k];
      }
    }
  }

  /** The total value of a portfolio with no negative quantity or price is not negative. */
  lemma TotalNonNegative(d: Dict<Holding>)
    requires d.Valid() && NonNegative(d) && TotalValue(d).Ok?
    ensures TotalValue(d).value >= 0.0
  {
    ValuesNonNegative(d);
    SumNonNegative(d.Values());
  }

  /** Over a zero total value every share is 0, so a rebalance buys nothing and sells nothing. */
  lemma RebalanceAtZeroTotal(d: Dict<Holding>, market: Dict<Observation>, stock: string, info: Holding)
    requires d.Valid() && TotalValue(d) == Ok(0.0)
    requires info.desiredAllocation.Some? && info.desiredAllocation.value >= 0.0
    ensures Rebalance(d, market, stock, info).Ok? ==> Rebalance(d, market, stock, info).value.items == d.items
  {
    if stock in d.items && Rebalance(d, market, stock, info).Ok? {
      var desired := info.desiredAllocation.value;
      assert CurrentAllocation(d, stock) == Ok(0.0);
      if 0.0 < desired {
        assert AmountToBuy(d, stock, desired, 0.0) == Ok(0.0);
        assert d.items[stock].(quantity := d.items[stock].quantity + 0.0) == d.items[stock];
      }
    }
  }

  /** A rebalance that changed the portfolio found a target, a held stock, a total value and a non-zero price. */
  lemma RebalanceChangeFacts(d: Dict<Holding>, market: Dict<Observation>, stock: string, info: Holding)
    requires d.Valid() && Rebalance(d, market, stock, info).Ok? && Rebalance(d, market, stock, info).value != d
    ensures info.desiredAllocation.Some? && TotalValue(d).Ok? && stock in d.items
    ensures d.items[stock].currentPrice.Some? && d.items[stock].currentPrice.value != 0.0
  {
  }

  /** Rebalancing a sound portfolio toward a target that is not negative keeps it sound. */
  lemma RebalanceKeepsSound(d: Dict<Holding>, market: Dict<Observation>, stock: string, info: Holding)
    requires d.Valid() && Sound(d)
    requires info.desiredAllocation.Some? ==> info.desiredAllocation.value >= 0.0
    ensures Rebalance(d, market, stock, info).Ok? ==> Sound(Rebalance(d, market, stock, info).value)
  {
    var r := Rebalance(d, market, stock, info);
    if r.Ok? && r.value != d {
      RebalanceChangeFacts(d, market, stock, info);
      TotalNonNegative(d);
      if TotalValue(d).value == 0.0 {
        RebalanceAtZeroTotal(d, market, stock, info);
        ItemsDetermineSoundness(d, r.value);
      } else {
        RebalancePositiveTotalKeepsSound(d, market, stock, info);
      }
    }
  }

  lemma ItemsDetermineSoundness(d: Dict<Holding>, e: Dict<Holding>)
    requires Sound(d) && e.items == d.items
    ensures Sound(e)
  {
  }

  lemma RebalancePositiveTotalKeepsSound(d: Dict<Holding>, market: Dict<Observation>, stock: string, info: Holding)
    requires d.Valid() && Sound(d) && TotalValue(d).Ok? && TotalValue(d).value > 0.0
    requires stock in d.items && d.items[stock].currentPrice.Some? && d.items[stock].currentPrice.value != 0.0
    requires info.desiredAllocation.Some? && info.desiredAllocation.value >= 0.0
    ensures Rebalance(d, market, stock, info).Ok? && Sound(Rebalance(d, market, stock, info).value)
  {
    var price := d.items[stock].currentPrice.value;
    var target := info.desiredAllocation.value * TotalValue(d).value / price;
    assert price > 0.0;
    RebalanceTrade(d, market, stock, info, TotalValue(d).value, price, CurrentAllocation(d, stock).value,
      info.desiredAllocation.value, target);
    RebalanceReachesTarget(d, market, stock, info);
    var r := Rebalance(d, market, stock, info).value;
    assert SameExcept(d, r, stock);
    assert stock in r.items ==> r.items[stock] == d.items[stock].(quantity := target);
    QuantityChangeKeepsSound(d, r, stock, target);
  }

  /**
   One iteration of the rebalance loop: look the stock up, read its `should_rebalance`
   flag, and rebalance it when the flag is set. A stock whose flag is clear is left alone.
   */
  function RebalanceStep(d: Dict<Holding>, market: Dict<Observation>, stock: string): (r: Result<Dict<Holding>>)
    requires d.Valid()
    ensures stock !in d.items ==> r == Err(KeyError(stock))
    ensures stock in d.items && d.items[stock].shouldRebalance.None? ==> r == Err(KeyError("should_rebalance"))
    ensures stock in d.items && d.items[stock].shouldRebalance == Some(false) ==> r == Ok(d)
    ensures r.Ok? ==> r.value.Valid()
  {
    if stock !in d.items then Err(KeyError(stock))
    else
      var info := d.items[stock];
      match info.shouldRebalance
      case None => Err(KeyError("should_rebalance"))
      case Some(flagged) => if flagged then Rebalance(d, market, stock, info) else Ok(d)
  }

  /** The rebalance loop of `manage_portfolio`, over a snapshot `stocks` of the holdings' keys. */
  function RebalanceAll(d: Dict<Holding>, market: Dict<Observation>, stocks: seq<string>): (r: Run)
    requires d.Valid()
    ensures r.investments.Valid()
    decreases |stocks|
  {
    if stocks == [] then Run(d, None)
    else match RebalanceStep(d, market, stocks[0])
      case Err(e) => Run(d, Some(e))
      case Ok(next) => RebalanceAll(next, market, stocks[1..])
  }

  /**
   One iteration of the trading loop for a symbol of the market knowledge: buy if
   `should_buy`, else sell if `should_sell`, else nothing. The buy cannot miss the
   symbol in the market, so the only exception is the missing `is_overvalued` key.
   */
  function TradeStep(d: Dict<Holding>, market: Dict<Observation>, stock: string, amount: real): (r: Result<Dict<Holding>>)
    requires d.Valid() && stock in market.items
    ensures r.Err? <==> Decide(market.items[stock]).Raise?
    ensures r.Err? ==> r.error == KeyError("is_overvalued")
    ensures r.Ok? ==> r.value.Valid() && SameExcept(d, r.value, stock)
    ensures Decide(market.items[stock]) == Hold ==> r == Ok(d)
  {
    match Decide(market.items[stock])
    case Raise(e) => Err(e)
    case Hold => Ok(d)
    case SellIt => Ok(Sell(d, stock, amount))
    case BuyIt => Buy(d, market, stock, amount)
  }

  /** The trading loop of `manage_portfolio`, over the symbols `symbols` of the market knowledge, with explicit amounts. */
  function TradeAll(d: Dict<Holding>, market: Dict<Observation>, symbols: seq<string>, amounts: map<string, real>): (r: Run)
    requires d.Valid()
    requires forall k :: k in symbols ==> k in market.items && k in amounts
    ensures r.investments.Valid()
    decreases |symbols|
  {
    if symbols == [] then Run(d, None)
    else match TradeStep(d, market, symbols[0], amounts[symbols[0]])
      case Err(e) => Run(d, Some(e))
      case Ok(next) => TradeAll(next, market, symbols[1..], amounts)
  }

  /** `manage_portfolio`: the rebalance loop, then, unless it raised, the trading loop. */
  function ManageCycle(d: Dict<Holding>, market: Dict<Observation>, amounts: map<string, real>): (r: Run)
    requires d.Valid() && market.Valid()
    requires forall k :: k in market.items ==> k in amounts
    ensures r.investments.Valid()
  {
    var rebalanced := RebalanceAll(d, market, d.keys);
    if rebalanced.raised.Some? then rebalanced
    else TradeAll(rebalanced.investments, market, market.keys, amounts)
  }

  lemma {:induction false} RebalanceAllKeepsSound(d: Dict<Holding>, market: Dict<Observation>, stocks: seq<string>)
    requires d.Valid() && Sound(d)
    ensures Sound(RebalanceAll(d, market, stocks).investments)
    decreases |stocks|
  {
    if stocks != [] && RebalanceStep(d, market, stocks[0]).Ok? {
      var info := d.items[stocks[0]];
      if info.shouldRebalance == Some(true) {
        RebalanceKeepsSound(d, market, stocks[0], info);
      }
      RebalanceAllKeepsSound(RebalanceStep(d, market, stocks[0]).value, market, stocks[1..]);
    }
  }

  lemma {:induction false} TradeAllKeepsSound(d: Dict<Holding>, market: Dict<Observation>, symbols: seq<string>, amounts: map<string, real>)
    requires d.Valid() && Sound(d)
    requires forall k :: k in symbols ==> k in market.items && k in amounts
    requires forall k :: k in amounts ==> amounts[k] >= 0.0
    ensures Sound(TradeAll(d, market, symbols, amounts).investments)
    decreases |symbols|
  {
    if symbols != [] && TradeStep(d, market, symbols[0], amounts[symbols[0]]).Ok? {
      var stock := symbols[0];
      var next := TradeStep(d, market, stock, amounts[stock]).value;
      assert Sound(next) by {
        forall k | k in next.items
          ensures next.items[k].quantity >= 0.0
          ensures next.items[k].currentPrice.Some? ==> next.items[k].currentPrice.value >= 0.0
          ensures next.items[k].desiredAllocation.Some? ==> next.items[k].desiredAllocation.value >= 0.0
        {
          if k != stock {
            assert next.items[k] == d.items[k];
          }
        }
      }
      TradeAllKeepsSound(next, market, symbols[1..], amounts);
    }
  }

  /**
   With non-negative trade amounts, a whole `manage_portfolio` cycle over a sound
   portfolio, completed or ended by an exception, leaves no negative quantity.
   */
  lemma CycleKeepsSound(d: Dict<Holding>, market: Dict<Observation>, amounts: map<string, real>)
    requires d.Valid() && market.Valid() && Sound(d)
    requires forall k :: k in market.items ==> k in amounts
    requires forall k :: k in amounts ==> amounts[k] >= 0.0
    ensures Sound(ManageCycle(d, market, amounts).investments)
  {
    RebalanceAllKeepsSound(d, market, d.keys);
    var rebalanced := RebalanceAll(d, market, d.keys);
    if rebalanced.raised.None? {
      TradeAllKeepsSound(rebalanced.investments, market, market.keys, amounts);
    }
  }
}
