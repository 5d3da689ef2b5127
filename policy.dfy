/**
 The persona's buy and sell signals, read from one market observation, and the
 per-symbol decision of the trading loop in `manage_portfolio`, which asks the sell
 signal only when the buy signal is false.
 */
module Policy {
  import opened Records

  /**
   `should_buy`: positive sentiment and an undervalued stock. A buy signal rules out
   negative sentiment, so `should_sell` can then fire only through `is_overvalued`.
   */
  function ShouldBuy(o: Observation): (r: bool)
    ensures r ==> (ShouldSell(o).Ok? <==> o.isOvervalued.Some?)
    ensures r ==> (ShouldSell(o) == Ok(true) <==> o.isOvervalued == Some(true))
  {
    o.sentiment > 0.5 && o.isUndervalued
  }

  /**
   `should_sell`: negative sentiment or an overvalued stock. The `or` short-circuits,
   so a missing `is_overvalued` raises a KeyError only when sentiment is at least 0.5.
   */
  function ShouldSell(o: Observation): (r: Result<bool>)
    ensures r.Err? <==> o.sentiment >= 0.5 && o.isOvervalued.None?
  {
    if o.sentiment < 0.5 then Ok(true)
    else match o.isOvervalued
      case None => Err(KeyError("is_overvalued"))
      case Some(overvalued) => Ok(overvalued)
  }

  datatype Decision = BuyIt | SellIt | Hold | Raise(error: Error)

  /** One iteration of the trading loop: buy if `should_buy`, else sell if `should_sell`. */
  function Decide(o: Observation): (r: Decision)
    ensures r == BuyIt <==> ShouldBuy(o)
    ensures r == SellIt <==> !ShouldBuy(o) && ShouldSell(o) == Ok(true)
    ensures r == Hold <==> !ShouldBuy(o) && ShouldSell(o) == Ok(false)
    ensures r.Raise? <==> !ShouldBuy(o) && ShouldSell(o).Err?
    ensures r.Raise? ==> r.error == KeyError("is_overvalued")
  {
    if ShouldBuy(o) then BuyIt
    else match ShouldSell(o)
      case Err(e) => Raise(e)
      case Ok(sell) => if sell then SellIt else Hold
  }

  /** The decision as a table over sentiment and the two valuation flags. */
  lemma DecisionTable(o: Observation)
    ensures Decide(o) == BuyIt <==> o.sentiment > 0.5 && o.isUndervalued
    ensures Decide(o) == SellIt <==>
      !(o.sentiment > 0.5 && o.isUndervalued) && (o.sentiment < 0.5 || o.isOvervalued == Some(true))
    ensures Decide(o) == Hold <==>
      !(o.sentiment > 0.5 && o.isUndervalued) && o.sentiment >= 0.5 && o.isOvervalued == Some(false)
    ensures Decide(o) == Raise(KeyError("is_overvalued")) <==>
      !(o.sentiment > 0.5 && o.isUndervalued) && o.sentiment >= 0.5 && o.isOvervalued.None?
  {
  }

  /**
   Both signals can hold at once only for an undervalued stock with positive
   sentiment that is also flagged overvalued; the loop then buys.
   */
  lemma ConflictingSignals(o: Observation)
    ensures ShouldBuy(o) && ShouldSell(o) == Ok(true) <==>
      o.sentiment > 0.5 && o.isUndervalued && o.isOvervalued == Some(true)
    ensures ShouldBuy(o) ==> Decide(o) == BuyIt
  {
  }
}
