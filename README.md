# Persona investment portfolio

A Dafny model of the investment-portfolio logic of the `Persona` class of the
generative-agents simulation Reverie (`reverie/backend_server/persona/persona1.py`).
A persona holds two keyed dictionaries:

- `current_investments` maps a stock symbol to a holding. A holding has a quantity, a purchase price, and optionally a current price, a desired allocation, a rebalance flag and a risk score.
- `market_knowledge` maps a symbol to an observation: a current price, a sentiment, an undervalued flag and an optional overvalued flag.

Over these the persona:

- computes the share of the portfolio's market value that one stock makes up;
- computes the quantity to buy or sell to move that share to a target;
- decides from an observation whether to buy or sell;
- buys and sells in place, and rebalances flagged holdings;
- runs a whole management cycle;
- averages per-holding returns and risk scores.

How the model is laid out:

- `Records` holds the records and the two exceptions the model keeps: `KeyError` for a missing dictionary key and `ZeroDivisionError`. The other exceptions the code can raise (`TypeError`, `RuntimeError`, `NameError`) come from the deviations listed under "## Left out".
- `Dicts` holds an insertion-ordered dictionary. The key order matters for iteration.
- `Allocation` holds the allocation formulas, and `Policy` the buy/sell signals.
- `Trades` holds buy and sell as functions on the dictionary.
- `Management` holds `rebalance_stock` and the loops of `manage_portfolio`.
- `Evaluation` holds the two accumulator loops, as methods proved against recursive specification functions.
- `Personas` holds the `Persona` class. Its methods update `currentInvestments` in place, and each is proved equal to the specification function above it.
- `Scenarios` holds worked examples on concrete portfolios.

A Python exception is a `Result.Err` (or the `raised` part of a `Run`). A method that
raises leaves the portfolio as the trades before it left it. Prices and quantities
are exact reals.

## Model

| member | source | states |
|---|---|---|
| Allocation.TotalValue | reverie/backend_server/persona/persona1.py:123 | the total value is defined exactly when every holding has a current price; otherwise `KeyError('current_price')` |
| Allocation.CurrentAllocation | reverie/backend_server/persona/persona1.py:123-126 | the allocation is defined iff every holding is priced and the stock is held; a missing stock raises `KeyError(stock)` |
| Allocation.AllocationOfHeld | reverie/backend_server/persona/persona1.py:124-126 | a held stock's allocation is its market value over the total when the total is positive, and 0 otherwise |
| Allocation.AllocationInUnitInterval | reverie/backend_server/persona/persona1.py:123-126 | with no negative quantity or price, a held stock's allocation lies in [0, 1] |
| Allocation.AllocationsSumToOne | reverie/backend_server/persona/persona1.py:123-126 | over a portfolio with positive total value, the allocations of all holdings add up to exactly 1 |
| Allocation.AllocationSumIsShare | reverie/backend_server/persona/persona1.py:123-126 | the allocations of any set of held stocks add up to their combined value over the total |
| Allocation.AmountToBuy | reverie/backend_server/persona/persona1.py:137-142 | defined iff every holding is priced, the stock is held and its price is non-zero; then equals (desired − current) × total / price |
| Allocation.AmountToSell | reverie/backend_server/persona/persona1.py:153-158 | defined under the same conditions; then equals (current − desired) × total / price |
| Allocation.SellIsNegatedBuy | reverie/backend_server/persona/persona1.py:137-158 | the amount to sell is exactly the negated amount to buy, and the two fail with the same exception |
| Allocation.BuyAmountPositive | reverie/backend_server/persona/persona1.py:107-109 | on the buy branch (current < desired), with positive total and price, the amount to buy is positive |
| Allocation.SellAmountPositive | reverie/backend_server/persona/persona1.py:111-113 | on the sell branch (current > desired), with positive total and price, the amount to sell is positive |
| Policy.ShouldBuy | reverie/backend_server/persona/persona1.py:172 | when the buy signal holds (sentiment above 0.5, undervalued), `should_sell` can fire only through `is_overvalued`, and raises iff that flag is missing; `Policy.DecisionTable` gives the full condition |
| Policy.ShouldSell | reverie/backend_server/persona/persona1.py:184 | the short-circuit `or` raises `KeyError('is_overvalued')` iff sentiment is at least 0.5 and the flag is missing |
| Policy.Decide | reverie/backend_server/persona/persona1.py:92-95 | the loop buys iff `should_buy` holds; only otherwise is `should_sell` asked, and it sells on true, holds on false, or raises `KeyError('is_overvalued')` |
| Policy.DecisionTable | reverie/backend_server/persona/persona1.py:92-95 | the trading loop buys iff sentiment > 0.5 and the stock is undervalued; otherwise it sells iff sentiment < 0.5 or the stock is overvalued; otherwise it holds; or it raises on a missing flag |
| Policy.ConflictingSignals | reverie/backend_server/persona/persona1.py:172-184 | both signals hold only for an undervalued, overvalued stock with sentiment above 0.5, and then the loop buys |
| Trades.Buy | reverie/backend_server/persona/persona1.py:194-198 | a held stock gains `amount` and keeps its other fields; a new stock gets exactly a quantity and the market's current price as purchase price; an unknown new stock raises `KeyError(stock)`; no other entry changes |
| Trades.Sell | reverie/backend_server/persona/persona1.py:211-223 | when the stock is held with at least `amount`, the quantity drops by `amount` and the key goes iff it reaches exactly 0; otherwise the portfolio is unchanged; no other entry changes, and a removal is a `del` |
| Dicts.DeleteKeepsOrder | reverie/backend_server/persona/persona1.py:219 | `del` removes the key at its position and leaves every other key in its insertion order |
| Trades.BuyThenSellRestores | reverie/backend_server/persona/persona1.py:198-219 | buying q > 0 of an absent stock that the market knows, then selling q, restores the portfolio exactly, key order included |
| Trades.ExecuteAll | reverie/backend_server/persona/persona1.py:186-223 | a run of buys and sells keeps the dictionary well formed |
| Trades.TradesKeepNonNegative | reverie/backend_server/persona/persona1.py:195-219 | with non-negative amounts, no run of trades makes a quantity or a known price negative |
| Trades.TradesKeepPositive | reverie/backend_server/persona/persona1.py:211-219 | with positive amounts, every held stock keeps a positive quantity |
| Management.Rebalance | reverie/backend_server/persona/persona1.py:104-114 | a successful rebalance leaves a well-formed dictionary |
| Management.RebalanceReachesTarget | reverie/backend_server/persona/persona1.py:104-114 | with positive total and price, it buys iff current < desired, sells iff current > desired and changes nothing iff they are equal; the trade moves the quantity to desired × total / price, the sell always passes its check, and the stock is removed iff the target is 0 |
| Management.RebalanceAtZeroTotal | reverie/backend_server/persona/persona1.py:107-114 | with a zero total value and a non-negative target, a successful rebalance leaves the holdings unchanged: every share is 0, so any buy is of 0 and nothing is sold |
| Management.RebalanceKeepsSound | reverie/backend_server/persona/persona1.py:104-114 | a rebalance of a sound portfolio (no negative quantity, price or target) leaves it sound |
| Management.RebalanceStep | reverie/backend_server/persona/persona1.py:86-88 | one iteration raises `KeyError(stock)` for a missing stock and `KeyError('should_rebalance')` for a missing flag, leaves the portfolio alone when the flag is clear, and otherwise rebalances |
| Management.RebalanceAll | reverie/backend_server/persona/persona1.py:86-88 | the rebalance loop keeps the dictionary well formed and stops at the first exception, including `KeyError('should_rebalance')` |
| Management.TradeStep | reverie/backend_server/persona/persona1.py:92-95 | one iteration raises iff the decision raises, and then `KeyError('is_overvalued')`; a hold changes nothing; any trade changes only that symbol's entry |
| Management.TradeAll | reverie/backend_server/persona/persona1.py:91-95 | the trading loop keeps the dictionary well formed |
| Management.ManageCycle | reverie/backend_server/persona/persona1.py:81-95 | a whole cycle keeps the dictionary well formed |
| Management.CycleKeepsSound | reverie/backend_server/persona/persona1.py:81-95 | with non-negative amounts, a whole cycle over a sound portfolio leaves no negative quantity, whether it completes or raises |
| Evaluation.Average | reverie/backend_server/persona/persona1.py:236 | the division after the loop: defined iff there is a holding and every term succeeds, and then the sum of the terms over the number of holdings |
| Evaluation.AccumulateIsSum | reverie/backend_server/persona/persona1.py:230-234 | the accumulator loop succeeds iff every term does, and then totals the terms |
| Evaluation.FirstFailureRaised | reverie/backend_server/persona/persona1.py:231-236 | the loop raises the exception of the first holding whose term raises |
| Evaluation.PerformanceIsMeanReturn | reverie/backend_server/persona/persona1.py:230-236 | over a non-empty, priced portfolio with non-zero purchase prices, performance is the arithmetic mean of the per-holding simple returns |
| Evaluation.RiskIsMeanScore | reverie/backend_server/persona/persona1.py:243-249 | over a non-empty portfolio whose holdings all carry a risk score, the risk is the mean score |
| Evaluation.EmptyPortfolioRaises | reverie/backend_server/persona/persona1.py:236 | an empty portfolio raises `ZeroDivisionError` |
| Evaluation.EvaluatePerformance | reverie/backend_server/persona/persona1.py:226-236 | the loop computes exactly the specified average of returns, exception included |
| Evaluation.AssessRisk | reverie/backend_server/persona/persona1.py:239-249 | the loop computes exactly the specified average of risk scores, exception included |
| Personas.SeedKnowledge | reverie/backend_server/persona/persona1.py:51-55 | the seeded market knowledge is a well-formed dictionary of StockA and StockB |
| Personas.Persona.constructor | reverie/backend_server/persona/persona1.py:31-41 | empty investments, the seeded market knowledge, risk tolerance 0.5 and cash reserves 100000 |
| Personas.Persona.BuyStock | reverie/backend_server/persona/persona1.py:186-201 | the in-place buy reaches the state `Trades.Buy` specifies, or raises without change; cash reserves are untouched |
| Personas.Persona.SellStock | reverie/backend_server/persona/persona1.py:204-223 | the in-place sell reaches the state `Trades.Sell` specifies; cash reserves are untouched |
| Personas.Persona.RebalanceStock | reverie/backend_server/persona/persona1.py:97-114 | the in-place rebalance reaches the state `Management.Rebalance` specifies, or raises without change |
| Personas.Persona.ManagePortfolio | reverie/backend_server/persona/persona1.py:81-95 | the two in-place loops reach the state and the exception that `Management.ManageCycle` specifies; cash reserves are untouched |
| Personas.Persona.RebalanceHoldings | reverie/backend_server/persona/persona1.py:86-88 | the in-place rebalance loop matches `Management.RebalanceAll` |
| Personas.Persona.RebalanceFlagged | reverie/backend_server/persona/persona1.py:87-88 | one in-place iteration of the rebalance loop matches `Management.RebalanceStep` |
| Personas.Persona.TradeOnKnowledge | reverie/backend_server/persona/persona1.py:91-95 | the in-place trading loop matches `Management.TradeAll` |
| Personas.Persona.TradeSymbol | reverie/backend_server/persona/persona1.py:92-95 | one in-place iteration of the trading loop matches `Management.TradeStep`; cash reserves are untouched |
| Scenarios.SeedDecisions | reverie/backend_server/persona/persona1.py:52-53 | on the seeded knowledge the loop buys StockA and sells StockB |
| Scenarios.BuyIntoEmpty | reverie/backend_server/persona/persona1.py:198 | buying into an empty portfolio inserts quantity and purchase price only |
| Scenarios.SoleHoldingIsWholePortfolio | reverie/backend_server/persona/persona1.py:123-126 | a sole priced holding has allocation 1 |
| Scenarios.SellAllThenSellAgain | reverie/backend_server/persona/persona1.py:211-223 | selling a whole holding deletes it, and selling it again is a no-op |
| Scenarios.RebalanceTowardSeventyPercent | reverie/backend_server/persona/persona1.py:104-142 | 10 at 50 beside 5 at 100 is a 50% share; a target of 70% buys 4 |
| Scenarios.OppositeReturnsCancel | reverie/backend_server/persona/persona1.py:230-236 | returns of +10% and −10% average to 0 |
| Scenarios.NewHoldingHasNoPrice | reverie/backend_server/persona/persona1.py:198 | after a new stock is bought, the total value and every allocation raise `KeyError('current_price')` |
| Scenarios.FirstCycleOnSeed | reverie/backend_server/persona/persona1.py:81-95 | a first cycle from empty investments on the seeded knowledge buys StockA and skips selling the absent StockB |
| Scenarios.SecondCycleRaises | reverie/backend_server/persona/persona1.py:87 | a second cycle raises `KeyError('should_rebalance')`, because a bought holding has no rebalance flag |

## Left out

- Loading investments from a saved JSON file (lines 57-77) is file I/O. The model starts from empty investments, which is the branch taken without a saved folder. Records loaded from such a file are assumed to carry `quantity` and `purchase_price`.
- `__init__` refers to an undefined `folder_mem_saved` (line 42), which would raise `NameError`. The constructor takes the empty-investments branch instead.
- The imported memory and cognitive modules (lines 16-27) are not part of this model.
- `conduct_market_research` (lines 253-260) only merges an empty dictionary into the market knowledge, so it changes nothing. It is not modelled.
- `transaction_history` (line 38) is never read or updated by the core and is not modelled. `risk_tolerance` is never read either; only its initial value is modelled.
- Floating-point rounding is not modelled. Prices and quantities are exact reals, so the zero test before a delete (line 218) is exact equality.
- Personas.Persona.ManagePortfolio: the source passes the `market_info` dictionary as the trade amount (lines 93, 95). For a symbol already held this raises `TypeError` at `+=` (line 195) or `>=` (line 211). A buy of a new symbol stores the dictionary itself as the quantity (line 198), and a sell of a symbol not held stops at the membership test (line 211). So the seeded first cycle completes in Python with StockA's quantity set to its market dictionary. The model takes an explicit numeric amount per symbol instead; `Scenarios.FirstCycleOnSeed` shows an amount of 10 where Python would store the dictionary.
- Personas.Persona.ManagePortfolio: the source iterates over the live investments dictionary while `sell_stock` can delete from it, which raises `RuntimeError` in Python. The model iterates over a snapshot of the keys in insertion order. The source also inserts new keys during the trading loop, but that loop iterates over the market knowledge, which no trade changes.
- Cash reserves are never debited or credited: the two lines that would do it (201, 215) are commented out, and every method states that `cashReserves` is unchanged.
- A sell that fails its availability check is a silent no-op (lines 220-223), as the code has it, and raises nothing.
- A buy of amount 0 of a new stock inserts a zero-quantity holding, as the code does. `Trades.TradesKeepPositive` therefore requires positive amounts.
- Python `dict` iteration order is modelled as insertion order. A new key goes last, and a deleted key leaves the order of the others unchanged.
