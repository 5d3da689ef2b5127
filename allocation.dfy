/**
 The allocation arithmetic of the persona: the market value of the portfolio, the
 share of it one holding makes up, and the quantity to buy or sell to move that
 share to a target. Prices and quantities are exact reals.
 */
module Allocation {
  import opened Records
  import opened Dicts

  predicate AllPriced(hs: seq<Holding>)
  {
    forall i :: 0 <= i < |hs| ==> hs[i].currentPrice.Some?
  }

  /** Every holding has a quantity and a known price that are not negative. */
  ghost predicate NonNegative(d: Dict<Holding>)
  {
    forall k :: k in d.items ==>
      d.items[k].quantity >= 0.0 && (d.items[k].currentPrice.Some? ==> d.items[k].currentPrice.value >= 0.0)
  }

  /** `quantity * current_price` of one holding. */
  function MarketValue(h: Holding): real
    requires h.currentPrice.Some?
  {
    h.quantity * h.currentPrice.value
  }

  function SumValue(hs: seq<Holding>): real
    requires AllPriced(hs)
  {
    if hs == [] then 0.0 else MarketValue(hs[0]) + SumValue(hs[1..])
  }

  /** The total portfolio value the three calculations share; a KeyError when some holding has no current price. */
  function TotalValue(d: Dict<Holding>): (r: Result<real>)
    requires d.Valid()
    ensures r.Ok? <==> forall k :: k in d.items ==> d.items[k].currentPrice.Some?
    ensures r.Err? ==> r.error == KeyError("current_price")
  {
    var hs := d.Values();
    assert forall k :: k in d.items ==> exists i :: 0 <= i < |hs| && d.keys[i] == k;
    if AllPriced(hs) then Ok(SumValue(hs)) else Err(KeyError("current_price"))
  }

  /** `calculate_current_allocation`: the stock's share of the total value, or 0 when the total is not positive. */
  function CurrentAllocation(d: Dict<Holding>, stock: string): (r: Result<real>)
    requires d.Valid()
    ensures r.Ok? <==> TotalValue(d).Ok? && stock in d.items
    ensures r.Err? && TotalValue(d).Ok? ==> r.error == KeyError(stock)
  {
    match TotalValue(d)
    case Err(e) => Err(e)
    case Ok(total) =>
      if stock !in d.items then Err(KeyError(stock))
      else match d.items[stock].currentPrice
        case None => Err(KeyError("current_price"))
        case Some(price) =>
          var stockValue := d.items[stock].quantity * price;
          Ok(if total > 0.0 then stockValue / total else 0.0)
  }

  /** `calculate_amount_to_buy`: (desired − current) × total / the stock's price. */
  function AmountToBuy(d: Dict<Holding>, stock: string, desired: real, current: real): (r: Result<real>)
    requires d.Valid()
    ensures r.Ok? <==> TotalValue(d).Ok? && stock in d.items && d.items[stock].currentPrice.Some? && d.items[stock].currentPrice.value != 0.0
    ensures r.Ok? ==> r.value == (desired - current) * TotalValue(d).value / d.items[stock].currentPrice.value
  {
    match TotalValue(d)
    case Err(e) => Err(e)
    case Ok(total) =>
      var valueToBuy := desired * total - current * total;
      if stock !in d.items then Err(KeyError(stock))
      else match d.items[stock].currentPrice
        case None => Err(KeyError("current_price"))
        case Some(price) => if price == 0.0 then Err(ZeroDivisionError) else Ok(valueToBuy / price)
  }

  /** `calculate_amount_to_sell`: (current − desired) × total / the stock's price. */
  function AmountToSell(d: Dict<Holding>, stock: string, desired: real, current: real): (r: Result<real>)
    requires d.Valid()
    ensures r.Ok? <==> TotalValue(d).Ok? && stock in d.items && d.items[stock].currentPrice.Some? && d.items[stock].currentPrice.value != 0.0
    ensures r.Ok? ==> r.value == (current - desired) * TotalValue(d).value / d.items[stock].currentPrice.value
  {
    match TotalValue(d)
    case Err(e) => Err(e)
    case Ok(total) =>
      var valueToSell := current * total - desired * total;
      if stock !in d.items then Err(KeyError(stock))
      else match d.items[stock].currentPrice
        case None => Err(KeyError("current_price"))
        case Some(price) => if price == 0.0 then Err(ZeroDivisionError) else Ok(valueToSell / price)
  }

  /** The amount to sell is exactly the negated amount to buy, and both fail alike. */
  lemma SellIsNegatedBuy(d: Dict<Holding>, stock: string, desired: real, current: real)
    requires d.Valid()
    ensures AmountToBuy(d, stock, desired, current).Ok? <==> AmountToSell(d, stock, desired, current).Ok?
    ensures AmountToBuy(d, stock, desired, current).Ok? ==>
      AmountToSell(d, stock, desired, current).value == -AmountToBuy(d, stock, desired, current).value
    ensures AmountToBuy(d, stock, desired, current).Err? ==>
      AmountToSell(d, stock, desired, current) == AmountToBuy(d, stock, desired, current)
  {
    if AmountToBuy(d, stock, desired, current).Ok? {
      var total := TotalValue(d).value;
      var price := d.items[stock].currentPrice.value;
      assert AmountToBuy(d, stock, desired, current).value == (desired * total - current * total) / price;
      assert AmountToSell(d, stock, desired, current).value == (current * total - desired * total) / price;
      NegatedQuotient(desired * total - current * total, current * total - desired * total, price);
    }
  }

  lemma NegatedQuotient(x: real, y: real, p: real)
    requires y == -x && p != 0.0
    ensures y / p == -(x / p)
  {
  }

  /** A holding's market value is at most the sum over a sequence it belongs to, when no value is negative. */
  lemma {:induction false} ValueAtMostSum(hs: seq<Holding>, i: nat)
    requires AllPriced(hs) && i < |hs|
    requires forall j :: 0 <= j < |hs| ==> MarketValue(hs[j]) >= 0.0
    ensures 0.0 <= MarketValue(hs[i]) <= SumValue(hs)
  {
    if i == 0 {
      SumNonNegative(hs[1..]);
    } else {
      ValueAtMostSum(hs[1..], i - 1);
    }
  }

  lemma {:induction false} SumNonNegative(hs: seq<Holding>)
    requires AllPriced(hs)
    requires forall j :: 0 <= j < |hs| ==> MarketValue(hs[j]) >= 0.0
    ensures SumValue(hs) >= 0.0
  {
    if hs != [] {
      SumNonNegative(hs[1..]);
    }
  }

  /** With no negative quantity or price, a held stock's allocation lies between 0 and 1. */
  lemma AllocationInUnitInterval(d: Dict<Holding>, stock: string)
    requires d.Valid() && NonNegative(d) && TotalValue(d).Ok?
    requires stock in d.items
    ensures CurrentAllocation(d, stock).Ok?
    ensures 0.0 <= CurrentAllocation(d, stock).value <= 1.0
  {
    var hs := d.Values();
    var total := TotalValue(d).value;
    var i :| 0 <= i < |d.keys| && d.keys[i] == stock;
    ValuesNonNegative(d);
    ValueAtMostSum(hs, i);
    assert hs[i] == d.items[stock];
    AllocationOfHeld(d, stock);
    if total > 0.0 {
      FractionInUnitInterval(MarketValue(hs[i]), total);
    }
  }

  /** The allocation of a held stock when every holding has a price. */
  lemma AllocationOfHeld(d: Dict<Holding>, stock: string)
    requires d.Valid() && TotalValue(d).Ok? && stock in d.items
    ensures d.items[stock].currentPrice.Some?
    ensures CurrentAllocation(d, stock) ==
      Ok(if TotalValue(d).value > 0.0 then MarketValue(d.items[stock]) / TotalValue(d).value else 0.0)
  {
    var h := d.items[stock];
    assert h.currentPrice.Some?;
    var total := TotalValue(d).value;
    assert CurrentAllocation(d, stock).Ok?;
    if total > 0.0 {
      assert CurrentAllocation(d, stock).value == h.quantity * h.currentPrice.value / total;
      assert MarketValue(h) == h.quantity * h.currentPrice.value;
      assert CurrentAllocation(d, stock) == Ok(MarketValue(h) / total);
    } else {
      assert CurrentAllocation(d, stock).value == 0.0;
    }
  }

  /** Over a portfolio with no negative quantity or price, no holding has a negative market value. */
  lemma ValuesNonNegative(d: Dict<Holding>)
    requires d.Valid() && NonNegative(d) && AllPriced(d.Values())
    ensures forall j :: 0 <= j < |d.Values()| ==> MarketValue(d.Values()[j]) >= 0.0
  {
    var hs := d.Values();
    forall j | 0 <= j < |hs| ensures MarketValue(hs[j]) >= 0.0 {
      assert hs[j] == d.items[d.keys[j]];
      ProductNonNegative(hs[j].quantity, hs[j].currentPrice.value);
    }
  }

  lemma ProductNonNegative(a: real, b: real)
    requires a >= 0.0 && b >= 0.0
    ensures a * b >= 0.0
  {
  }

  lemma FractionInUnitInterval(v: real, total: real)
    requires 0.0 <= v <= total && total > 0.0
    ensures 0.0 <= v / total <= 1.0
  {
    var inverse := 1.0 / total;
    assert v / total == v * inverse;
    assert v * inverse <= total * inverse;
  }

  /** The sum of the allocations of the stocks in `ks`, as `calculate_current_allocation` computes each. */
  ghost function AllocationSum(d: Dict<Holding>, ks: seq<string>): real
    requires d.Valid()
  {
    if ks == [] then 0.0
    else (match CurrentAllocation(d, ks[0]) case Ok(a) => a case Err(_) => 0.0) + AllocationSum(d, ks[1..])
  }

  lemma {:induction false} AllocationSumIsShare(d: Dict<Holding>, ks: seq<string>)
    requires d.Valid() && TotalValue(d).Ok? && TotalValue(d).value > 0.0
    requires forall k :: k in ks ==> k in d.items
    ensures AllPriced(ValuesOf(ks, d.items))
    ensures AllocationSum(d, ks) == SumValue(ValuesOf(ks, d.items)) / TotalValue(d).value
  {
    var vs := ValuesOf(ks, d.items);
    var total := TotalValue(d).value;
    if ks != [] {
      AllocationSumIsShare(d, ks[1..]);
      assert vs[1..] == ValuesOf(ks[1..], d.items);
      AllocationOfHeld(d, ks[0]);
      AddFractions(MarketValue(d.items[ks[0]]), SumValue(vs[1..]), total);
    }
  }

  lemma AddFractions(a: real, b: real, t: real)
    requires t != 0.0
    ensures a / t + b / t == (a + b) / t
  {
  }

  /** Over a portfolio with a positive total value, the allocations of all holdings add up to exactly 1. */
  lemma AllocationsSumToOne(d: Dict<Holding>)
    requires d.Valid() && TotalValue(d).Ok? && TotalValue(d).value > 0.0
    ensures AllocationSum(d, d.keys) == 1.0
  {
    AllocationSumIsShare(d, d.keys);
  }

  /** On the buy branch of a rebalance (current below desired) the amount to buy is positive. */
  lemma BuyAmountPositive(d: Dict<Holding>, stock: string, desired: real, current: real)
    requires d.Valid() && TotalValue(d).Ok? && TotalValue(d).value > 0.0
    requires stock in d.items && d.items[stock].currentPrice.value > 0.0
    requires current < desired
    ensures AmountToBuy(d, stock, desired, current).Ok?
    ensures AmountToBuy(d, stock, desired, current).value > 0.0
  {
    var total := TotalValue(d).value;
    assert desired * total - current * total == (desired - current) * total;
  }

  /** On the sell branch of a rebalance (current above desired) the amount to sell is positive. */
  lemma SellAmountPositive(d: Dict<Holding>, stock: string, desired: real, current: real)
    requires d.Valid() && TotalValue(d).Ok? && TotalValue(d).value > 0.0
    requires stock in d.items && d.items[stock].currentPrice.value > 0.0
    requires current > desired
    ensures AmountToSell(d, stock, desired, current).Ok?
    ensures AmountToSell(d, stock, desired, current).value > 0.0
  {
    var total := TotalValue(d).value;
    assert current * total - desired * total == (current - desired) * total;
  }
}
