/**
 Worked examples of the persona's portfolio logic on concrete portfolios, and the
 consequences of a newly bought holding carrying only a quantity and a purchase price.
 */
module Scenarios {
  import opened Records
  import opened Dicts
  import opened Allocation
  import opened Policy
  import opened Trades
  import opened Management
  import opened Evaluation
  import opened Personas

  function Priced(quantity: real, purchasePrice: real, currentPrice: real): Holding
  {
    Holding(quantity, purchasePrice, Some(currentPrice), None, None, None)
  }

  /** The seed market knowledge says buy StockA and sell StockB. */
  lemma SeedDecisions()
    ensures Decide(SeedKnowledge().items["StockA"]) == BuyIt
    ensures Decide(SeedKnowledge().items["StockB"]) == SellIt
  {
  }

  /** Buying 10 StockA into an empty portfolio records 10 at the seed price of 100. */
  lemma BuyIntoEmpty()
    ensures Buy(Empty(), SeedKnowledge(), "StockA", 10.0) == Ok(Dict(["StockA"], map["StockA" := NewHolding(10.0, 100.0)]))
  {
    PutIntoEmpty("StockA", NewHolding(10.0, 100.0));
  }

  lemma PutIntoEmpty(k: string, h: Holding)
    ensures Put(Empty(), k, h) == Dict([k], map[k := h])
  {
    assert Empty<Holding>().keys + [k] == [k];
    assert Empty<Holding>().items[k := h] == map[k := h];
  }

  /** The only holding makes up the whole portfolio. */
  lemma SoleHoldingIsWholePortfolio()
    ensures CurrentAllocation(Dict(["StockA"], map["StockA" := Priced(10.0, 100.0, 100.0)]), "StockA") == Ok(1.0)
  {
    var d := Dict(["StockA"], map["StockA" := Priced(10.0, 100.0, 100.0)]);
    assert d.Values() == [Priced(10.0, 100.0, 100.0)];
  }

  /** Selling the whole holding removes it; selling again is silently ignored. */
  lemma SellAllThenSellAgain()
    ensures Sell(Dict(["StockA"], map["StockA" := Priced(10.0, 100.0, 100.0)]), "StockA", 10.0) == Empty()
    ensures Sell(Empty(), "StockA", 1.0) == Empty()
  {
    var d := Dict(["StockA"], map["StockA" := Priced(10.0, 100.0, 100.0)]);
    assert Without(["StockA"], "StockA") == [];
    assert d.items - {"StockA"} == map[];
  }

  /** Two holdings worth 500 each; raising the first to a 0.7 share buys (0.7 - 0.5) * 1000 / 50 = 4 more. */
  lemma RebalanceTowardSeventyPercent()
    ensures var d := Dict(["StockA", "StockB"], map["StockA" := Priced(10.0, 50.0, 50.0), "StockB" := Priced(5.0, 100.0, 100.0)]);
            && CurrentAllocation(d, "StockA") == Ok(0.5)
            && AmountToBuy(d, "StockA", 0.7, 0.5) == Ok(4.0)
            && Rebalance(d, SeedKnowledge(), "StockA", d.items["StockA"].(desiredAllocation := Some(0.7))).Ok?
            && Rebalance(d, SeedKnowledge(), "StockA", d.items["StockA"].(desiredAllocation := Some(0.7))).value.items["StockA"].quantity == 14.0
  {
    var d := Dict(["StockA", "StockB"], map["StockA" := Priced(10.0, 50.0, 50.0), "StockB" := Priced(5.0, 100.0, 100.0)]);
    assert d.Values() == [Priced(10.0, 50.0, 50.0), Priced(5.0, 100.0, 100.0)];
    assert TotalValue(d) == Ok(1000.0);
  }

  /** Returns of +10% and -10% average to 0. */
  lemma OppositeReturnsCancel()
    ensures Average([Priced(1.0, 100.0, 110.0), Priced(1.0, 100.0, 90.0)], StockReturn) == Ok(0.0)
  {
    var hs := [Priced(1.0, 100.0, 110.0), Priced(1.0, 100.0, 90.0)];
    assert hs[..1] == [hs[0]] && [hs[0]][..0] == [];
    assert StockReturn(hs[0]) == Ok(0.1) && StockReturn(hs[1]) == Ok(-0.1);
    assert Accumulate([hs[0]], StockReturn) == Ok(0.1);
    assert Accumulate(hs, StockReturn) == Ok(0.0);
  }

  /**
   A holding that `buy_stock` creates has no current price, so from then on every
   allocation and amount calculation over the portfolio raises a KeyError.
   */
  lemma NewHoldingHasNoPrice(d: Dict<Holding>, market: Dict<Observation>, stock: string, amount: real, other: string)
    requires d.Valid() && stock !in d.items && stock in market.items
    ensures Buy(d, market, stock, amount).Ok?
    ensures TotalValue(Buy(d, market, stock, amount).value) == Err(KeyError("current_price"))
    ensures CurrentAllocation(Buy(d, market, stock, amount).value, other) == Err(KeyError("current_price"))
  {
  }

  /** On the seed market, a first cycle with amounts 10 and 5 buys 10 StockA and ignores the sell of StockB, which is not held. */
  lemma FirstCycleOnSeed()
    ensures ManageCycle(Empty(), SeedKnowledge(), map["StockA" := 10.0, "StockB" := 5.0]) ==
      Run(Dict(["StockA"], map["StockA" := NewHolding(10.0, 100.0)]), None)
  {
    var amounts := map["StockA" := 10.0, "StockB" := 5.0];
    var bought := Dict(["StockA"], map["StockA" := NewHolding(10.0, 100.0)]);
    assert RebalanceAll(Empty(), SeedKnowledge(), []) == Run(Empty(), None);
    PutIntoEmpty("StockA", NewHolding(10.0, 100.0));
    assert Buy(Empty(), SeedKnowledge(), "StockA", 10.0) == Ok(bought);
    assert Sell(bought, "StockB", 5.0) == bought;
    assert TradeAll(bought, SeedKnowledge(), [], amounts) == Run(bought, None);
    assert ["StockA", "StockB"][1..] == ["StockB"] && ["StockB"][1..] == [];
    assert TradeAll(bought, SeedKnowledge(), ["StockB"], amounts) == Run(bought, None);
  }

  /** The holding bought in the first cycle has no `should_rebalance` key, so the next cycle raises at once. */
  lemma SecondCycleRaises()
    ensures var bought := Dict(["StockA"], map["StockA" := NewHolding(10.0, 100.0)]);
      ManageCycle(bought, SeedKnowledge(), map["StockA" := 10.0, "StockB" := 5.0]) ==
      Run(bought, Some(KeyError("should_rebalance")))
  {
  }
}
