/**
 `evaluate_performance` and `assess_risk`: accumulator loops over the holdings in
 insertion order that add up one term per holding and divide by the number of
 holdings. A term can raise (a missing key, a zero purchase price), and so can the
 final division when there are no holdings.
 */
module Evaluation {
  import opened Records
  import opened Dicts

  /** The simple return `(current_price - purchase_price) / purchase_price` of one holding. */
  function StockReturn(h: Holding): Result<real>
  {
    match h.currentPrice
    case None => Err(KeyError("current_price"))
    case Some(price) =>
      if h.purchasePrice == 0.0 then Err(ZeroDivisionError)
      else Ok((price - h.purchasePrice) / h.purchasePrice)
  }

  /** The `risk_score` of one holding. */
  function RiskScore(h: Holding): Result<real>
  {
    match h.riskScore
    case None => Err(KeyError("risk_score"))
    case Some(score) => Ok(score)
  }

  /** The accumulator after visiting every holding of `hs` from left to right; the first term that raises ends the loop. */
  function Accumulate(hs: seq<Holding>, term: Holding -> Result<real>): Result<real>
  {
    if hs == [] then Ok(0.0)
    else match Accumulate(hs[..|hs| - 1], term)
      case Err(e) => Err(e)
      case Ok(total) =>
        match term(hs[|hs| - 1])
        case Err(e) => Err(e)
        case Ok(x) => Ok(total + x)
  }

  /**
   The accumulated total divided by the number of holdings: defined iff there is a
   holding and every term succeeds, and then the sum of the terms over their number.
   */
  function Average(hs: seq<Holding>, term: Holding -> Result<real>): (r: Result<real>)
    ensures r.Ok? <==> |hs| > 0 && AllDefined(hs, term)
    ensures r.Ok? ==> r.value == Sum(Terms(hs, term)) / |hs| as real
  {
    AccumulateIsSum(hs, term);
    match Accumulate(hs, term)
    case Err(e) => Err(e)
    case Ok(total) => if |hs| == 0 then Err(ZeroDivisionError) else Ok(total / |hs| as real)
  }

  /** Every holding's term succeeds. */
  ghost predicate AllDefined(hs: seq<Holding>, term: Holding -> Result<real>)
  {
    forall i :: 0 <= i < |hs| ==> term(hs[i]).Ok?
  }

  ghost function Sum(xs: seq<real>): real
  {
    if xs == [] then 0.0 else xs[0] + Sum(xs[1..])
  }

  ghost function Mean(xs: seq<real>): real
    requires |xs| > 0
  {
    Sum(xs) / |xs| as real
  }

  /** The per-holding simple returns, defined outright. */
  ghost function Returns(hs: seq<Holding>): (rs: seq<real>)
    requires forall i :: 0 <= i < |hs| ==> hs[i].currentPrice.Some? && hs[i].purchasePrice != 0.0
    ensures |rs| == |hs|
  {
    if hs == [] then []
    else [(hs[0].currentPrice.value - hs[0].purchasePrice) / hs[0].purchasePrice] + Returns(hs[1..])
  }

  /** The per-holding risk scores, defined outright. */
  ghost function RiskScores(hs: seq<Holding>): (rs: seq<real>)
    requires forall i :: 0 <= i < |hs| ==> hs[i].riskScore.Some?
    ensures |rs| == |hs|
  {
    if hs == [] then [] else [hs[0].riskScore.value] + RiskScores(hs[1..])
  }

  /** The term of every holding, in order (a term that raises stands as 0 here). */
  ghost function Terms(hs: seq<Holding>, term: Holding -> Result<real>): (xs: seq<real>)
    ensures |xs| == |hs|
  {
    seq(|hs|, i requires 0 <= i < |hs| => match term(hs[i]) case Ok(x) => x case Err(_) => 0.0)
  }

  lemma {:induction false} SumAppend(xs: seq<real>, x: real)
    ensures Sum(xs + [x]) == Sum(xs) + x
  {
    if xs != [] {
      assert (xs + [x])[1..] == xs[1..] + [x];
      SumAppend(xs[1..], x);
    }
  }

  /** Once the loop has raised on a prefix, the whole loop raises the same exception. */
  lemma {:induction false} RaisePersists(hs: seq<Holding>, i: nat, term: Holding -> Result<real>)
    requires i <= |hs| && Accumulate(hs[..i], term).Err?
    ensures Accumulate(hs, term) == Accumulate(hs[..i], term)
    decreases |hs| - i
  {
    if i < |hs| {
      assert hs[..i + 1][..i] == hs[..i];
      RaisePersists(hs, i + 1, term);
    } else {
      assert hs[..i] == hs;
    }
  }

  /** One more iteration of the accumulator loop with a term that succeeds. */
  lemma AccumulateStep(hs: seq<Holding>, i: nat, term: Holding -> Result<real>, total: real, x: real)
    requires i < |hs| && Accumulate(hs[..i], term) == Ok(total) && term(hs[i]) == Ok(x)
    ensures Accumulate(hs[..i + 1], term) == Ok(total + x)
  {
    assert hs[..i + 1][..i] == hs[..i];
  }

  /** The loop raises exactly the exception of the first holding whose term raises. */
  lemma FirstFailureRaised(hs: seq<Holding>, i: nat, term: Holding -> Result<real>)
    requires i < |hs| && Accumulate(hs[..i], term).Ok? && term(hs[i]).Err?
    ensures Accumulate(hs, term) == Err(term(hs[i]).error)
    ensures Average(hs, term) == Err(term(hs[i]).error)
  {
    assert hs[..i + 1][..i] == hs[..i];
    RaisePersists(hs, i + 1, term);
  }

  /** When every term succeeds the accumulator is the sum of the terms; the loop raises iff some term raises. */
  lemma {:induction false} AccumulateIsSum(hs: seq<Holding>, term: Holding -> Result<real>)
    ensures Accumulate(hs, term).Ok? <==> forall i :: 0 <= i < |hs| ==> term(hs[i]).Ok?
    ensures Accumulate(hs, term).Ok? ==>
      Accumulate(hs, term).value == Sum(Terms(hs, term))
    decreases |hs|
  {
    if hs != [] {
      var n := |hs| - 1;
      var prefix := hs[..n];
      AccumulateIsSum(prefix, term);
      assert forall i :: 0 <= i < n ==> prefix[i] == hs[i];
      if Accumulate(hs, term).Ok? {
        var xs := Terms(prefix, term);
        assert Terms(hs, term) == xs + [term(hs[n]).value];
        SumAppend(xs, term(hs[n]).value);
      }
    }
  }

  /** With every return defined, `evaluate_performance` is the arithmetic mean of the per-holding returns. */
  lemma PerformanceIsMeanReturn(hs: seq<Holding>)
    requires |hs| > 0
    requires forall i :: 0 <= i < |hs| ==> hs[i].currentPrice.Some? && hs[i].purchasePrice != 0.0
    ensures Average(hs, StockReturn) == Ok(Mean(Returns(hs)))
  {
    AccumulateIsSum(hs, StockReturn);
    ReturnsAt(hs);
    assert Terms(hs, StockReturn) == Returns(hs);
  }

  lemma {:induction false} ReturnsAt(hs: seq<Holding>)
    requires forall i :: 0 <= i < |hs| ==> hs[i].currentPrice.Some? && hs[i].purchasePrice != 0.0
    ensures forall i :: 0 <= i < |hs| ==> StockReturn(hs[i]) == Ok(Returns(hs)[i])
  {
    if hs != [] {
      ReturnsAt(hs[1..]);
      forall i | 1 <= i < |hs| ensures StockReturn(hs[i]) == Ok(Returns(hs)[i]) {
        assert hs[i] == hs[1..][i - 1];
      }
    }
  }

  /** With every risk score present, `assess_risk` is the arithmetic mean of the risk scores. */
  lemma RiskIsMeanScore(hs: seq<Holding>)
    requires |hs| > 0
    requires forall i :: 0 <= i < |hs| ==> hs[i].riskScore.Some?
    ensures Average(hs, RiskScore) == Ok(Mean(RiskScores(hs)))
  {
    AccumulateIsSum(hs, RiskScore);
    RiskScoresAt(hs);
    assert Terms(hs, RiskScore) == RiskScores(hs);
  }

  lemma {:induction false} RiskScoresAt(hs: seq<Holding>)
    requires forall i :: 0 <= i < |hs| ==> hs[i].riskScore.Some?
    ensures forall i :: 0 <= i < |hs| ==> RiskScore(hs[i]) == Ok(RiskScores(hs)[i])
  {
    if hs != [] {
      RiskScoresAt(hs[1..]);
      forall i | 1 <= i < |hs| ensures RiskScore(hs[i]) == Ok(RiskScores(hs)[i]) {
        assert hs[i] == hs[1..][i - 1];
      }
    }
  }

  /** Both evaluators raise on an empty portfolio: the final division is by zero. */
  lemma EmptyPortfolioRaises(term: Holding -> Result<real>)
    ensures Average([], term) == Err(ZeroDivisionError)
  {
  }

  /** The final division of a loop that did not raise. */
  lemma AverageOfTotal(hs: seq<Holding>, term: Holding -> Result<real>, total: real)
    requires |hs| > 0 && Accumulate(hs, term) == Ok(total)
    ensures Average(hs, term) == Ok(total / |hs| as real)
  {
  }

  /** `evaluate_performance`, over the holdings of `investments` in insertion order. */
  method EvaluatePerformance(investments: Dict<Holding>) returns (r: Result<real>)
    requires investments.Valid()
    ensures r == Average(investments.Values(), StockReturn)
  {
    var hs := investments.Values();
    var totalReturn := 0.0;
    for i := 0 to |hs|
      invariant Accumulate(hs[..i], StockReturn) == Ok(totalReturn)
    {
      var info := hs[i];
      match info.currentPrice {
        case None =>
          FirstFailureRaised(hs, i, StockReturn);
          return Err(KeyError("current_price"));
        case Some(price) =>
          if info.purchasePrice == 0.0 {
            FirstFailureRaised(hs, i, StockReturn);
            return Err(ZeroDivisionError);
          }
          var stockReturn := (price - info.purchasePrice) / info.purchasePrice;
          assert StockReturn(info) == Ok(stockReturn);
          AccumulateStep(hs, i, StockReturn, totalReturn, stockReturn);
          totalReturn := totalReturn + stockReturn;
      }
    }
    assert hs[..|hs|] == hs;
    if |hs| == 0 {
      return Err(ZeroDivisionError);
    }
    AverageOfTotal(hs, StockReturn, totalReturn);
    r := Ok(totalReturn / |hs| as real);
  }

  /** `assess_risk`, over the holdings of `investments` in insertion order. */
  method AssessRisk(investments: Dict<Holding>) returns (r: Result<real>)
    requires investments.Valid()
    ensures r == Average(investments.Values(), RiskScore)
  {
    var hs := investments.Values();
    var portfolioRisk := 0.0;
    for i := 0 to |hs|
      invariant Accumulate(hs[..i], RiskScore) == Ok(portfolioRisk)
    {
      var info := hs[i];
      match info.riskScore {
        case None =>
          FirstFailureRaised(hs, i, RiskScore);
          return Err(KeyError("risk_score"));
        case Some(score) =>
          AccumulateStep(hs, i, RiskScore, portfolioRisk, score);
          portfolioRisk := portfolioRisk + score;
      }
    }
    assert hs[..|hs|] == hs;
    if |hs| == 0 {
      return Err(ZeroDivisionError);
    }
    AverageOfTotal(hs, RiskScore, portfolioRisk);
    r := Ok(portfolioRisk / |hs| as real);
  }
}
