# SriBot in Dafny

SriBot is a small Robinhood portfolio-rebalancing bot. This project models
its logic and proves properties of it. The bot is built from a dictionary
of target weights, one per ticker symbol, plus a `'$$$'` placeholder for
cash that is deliberately left uninvested. Building it validates the
weights: they are walked in insertion order with a running sum, and the
first negative weight, or the first weight that takes the sum above 1.0,
raises an error.

`rebalance` then works in three steps:
- For every weighted symbol it computes the dollar change that brings the
  position to its share of the account's equity, as
  `-round(current - ideal, 6)`. A symbol missing from the positions has a
  current holding of 0.
- It pops the placeholder from the changes. This raises `KeyError` when the
  placeholder is absent.
- It places one fractional order per remaining symbol: a sell of
  `abs(change)` for a negative change, a buy of the change for a positive
  one, and nothing for 0.

Modules:

- `Portfolio` (`portfolio.dfy`): symbols, the `'$$$'` placeholder, orders
  and `Result`. A Python dictionary is modelled as an insertion-ordered
  sequence of `Item(key, value)` pairs with distinct keys. The file also holds:
  - `AsMap`, the map view of such a sequence.
  - `Pop`, the model of `dict.pop`.
  - `IndexOf`, a key's position.
- `Rounding` (`rounding.dfy`): `round(x, 6)` on exact reals, half to even.
- `Validation` (`validation.dfy`):
  - the loop of the constructor (`ValidateWeights`);
  - the function that specifies it (`Validate`, the first refused position
    decides);
  - the lemmas about it.
- `Rebalancing` (`rebalance.dfy`):
  - the change entries (`Changes`), the orders (`Orders`) and the whole
    outcome (`Plan`);
  - the lemmas about them.
- `Bot` (`sribot.dfy`): the class `SriBot`, with the stored weights, the
  holdings and the account equity as fields. `Create` validates and then
  constructs. `Rebalance` runs the two loops of `rebalance` over the fields
  (the trading loop as `PlaceOrders`) and is proved equal to `Plan`.
- `Scenarios` (`scenarios.dfy`): the start-up portfolio of the program's
  main block, plus small inputs that exercise each decision.

Two consequences of the code:
- Only which error is raised depends on the order of the pairs
  (`ErrorDependsOnOrder`). Whether the weights are accepted does not, in
  exact arithmetic (`AcceptanceIgnoresOrder`).
- Without `'$$$'` among the weights, `rebalance` raises `KeyError('$$$')`
  before any order (`NoPlaceholderNoOrders`). `BuysTowardTargets` shows the
  orders for the same weights once the placeholder is present.

## Model

| member | source | states |
|---|---|---|
| Validation.ValidateWeights | SriBot.py:21-32 | the validation loop returns exactly what `Validate` specifies: the stored weights, or the error of the first refused pair |
| Validation.Validate | SriBot.py:21-32 | the outcome of construction: validation from the first pair on |
| Validation.ValidateFrom | SriBot.py:23-32 | the outcome of the validation loop resumed at pair `i`: the error of the first pair from `i` on that is refused, or the whole input when none is |
| Validation.RejectedAt | SriBot.py:25-30 | a pair is refused when its weight is negative or when the running sum including it exceeds 1.0 |
| Validation.ErrorAt | SriBot.py:25-30 | the error of a refused pair is a negative-weight error naming its symbol iff its weight is negative, and the sum error otherwise |
| Validation.Message | SriBot.py:26-30 | the message of each error; a negative weight's message carries its symbol at a fixed position |
| Validation.MessagesIdentifyErrors | SriBot.py:26-30 | two errors with the same message are the same error |
| Validation.Sum | SriBot.py:22-27 | the running sum `weightSum`, starting at 0 and adding the weights in order |
| Validation.ValidateFirstRejection | SriBot.py:23-30 | validation succeeds iff no pair is refused (negative weight, or running sum above 1.0 once it is added); then the stored weights equal the input; otherwise the error is the one of the FIRST refused pair, the negativity test taking precedence |
| Validation.ValidateFromFirstRejection | SriBot.py:23-30 | the same facts for validation resumed at any position `i` |
| Validation.StoredWeightsMatchInput | SriBot.py:21-32 | on success the stored dictionary has exactly the input's symbols, each bound to its input weight |
| Validation.ValidateAcceptsIff | SriBot.py:25-30 | validation accepts iff every weight is non-negative and the total is at most 1.0 (so a weight of 0 and a total of exactly 1.0 are accepted) |
| Validation.PrefixSumsGrow | SriBot.py:27 | with no negative weight the running sum never decreases |
| Validation.SumConcat | SriBot.py:27 | the running sum over two stretches of pairs is the sum of their sums |
| Validation.SumNonNegative | SriBot.py:27 | non-negative weights have a non-negative sum |
| Validation.LaterPairsIgnored | SriBot.py:23-30 | once validation fails, pairs appended after the input do not change the outcome |
| Validation.ValidateFromExtend | SriBot.py:23-30 | the same for validation resumed at position `i` |
| Validation.ZeroWeightAccepted | SriBot.py:25 | adding a symbol with weight exactly 0 to accepted weights keeps them accepted |
| Validation.SumPermutation | SriBot.py:27 | the total weight does not depend on the order of the pairs |
| Validation.SumMatchedLast | SriBot.py:27 | two sequences with the same last item, once removed, and the same remaining sum have the same sum |
| Validation.AcceptanceIgnoresOrder | SriBot.py:23-30 | two orderings of the same pairs are both accepted or both refused |
| Rounding.RoundHalfEven | SriBot.py:57 | the result is the nearest integer, with ties going to the even one |
| Rounding.RoundHalfEvenNegate | SriBot.py:57 | rounding to the nearest integer, ties to even, is symmetric about 0 |
| Rounding.Round6 | SriBot.py:57 | `round(x, 6)` is within half a millionth of `x` and is a whole number of millionths |
| Rounding.Round6Negate | SriBot.py:57 | `round(-x, 6) == -round(x, 6)` |
| Rounding.Round6Sign | SriBot.py:57 | `round(x, 6)` is positive iff `x` exceeds half a millionth, negative iff `x` is below minus half a millionth, and 0 iff `x` lies between them |
| Rounding.Round6Exact | SriBot.py:57 | a whole number of millionths is left unchanged by rounding |
| Rebalancing.IdealAmount | SriBot.py:50 | the equity a symbol should hold: its weight times the account equity |
| Rebalancing.CurrentAmount | SriBot.py:52-55 | the equity held in a symbol, 0 when the positions do not hold it |
| Rebalancing.PositionChange | SriBot.py:57 | a change entry: 0 minus `round(current - ideal, 6)` |
| Rebalancing.Changes | SriBot.py:46-57 | `positionChanges` after its loop: one entry per weighted symbol, in weight order |
| Rebalancing.OrderFor | SriBot.py:63-67 | the order of one entry: a sell of `abs(change)`, a buy of the change, or none for 0 |
| Rebalancing.Orders | SriBot.py:61-67 | the orders of the entries, concatenated in entry order |
| Rebalancing.OrdersAppend | SriBot.py:61-67 | one more entry appends exactly its own order |
| Rebalancing.Plan | SriBot.py:45-67 | the outcome of `rebalance`: `KeyError('$$$')` without the placeholder, else the orders of the change entries with the placeholder popped |
| Rebalancing.ChangesMeaning | SriBot.py:46-57 | there is one change entry per weighted symbol, in weight order. Each entry is `round(ideal - current, 6)`, with current 0 for a symbol not held, and lies within half a millionth of the exact difference. It is positive, negative or 0 exactly as the difference is above, below or within half a millionth |
| Rebalancing.OrdersSound | SriBot.py:61-67 | every issued order has a positive amount and the symbol of a change entry |
| Rebalancing.OrdersWithKey | SriBot.py:61-67 | the orders naming a key are exactly those its own change entry yields |
| Rebalancing.OrdersPerEntry | SriBot.py:61-67 | an entry yields a sell of `abs(change)` iff the change is negative, a buy of the change iff it is positive, and no order for its symbol iff it is 0 |
| Rebalancing.OrderForSigns | SriBot.py:63-67 | the same three facts for the order of a single entry |
| Rebalancing.SameOrdersFor | SriBot.py:61-67 | order lists with the same orders for a symbol satisfy the same three facts for it |
| Rebalancing.OrderPairInEntryOrder | SriBot.py:61-67 | any two orders come in the order of their symbols' change entries, so no symbol has two orders |
| Rebalancing.PlanFailsWithoutCash | SriBot.py:58 | rebalancing fails iff no weighted symbol is `'$$$'`, and the failure is `KeyError('$$$')` |
| Rebalancing.PlanOrdersValid | SriBot.py:58-67 | every order placed is for a weighted symbol other than `'$$$'` and has a positive amount |
| Rebalancing.PlanOrderPerSymbol | SriBot.py:46-67 | each weighted symbol other than `'$$$'` is sold for `abs(change)` iff its change is negative, bought for its change iff the change is positive, and gets no order iff the change is 0 |
| Rebalancing.EntryAfterPop | SriBot.py:58 | after popping `'$$$'` every other symbol still has its own change entry, and the keys stay distinct |
| Rebalancing.PlanInWeightOrder | SriBot.py:46-67 | orders are placed in the order of the weights, at most one per symbol |
| Rebalancing.PlanPairInWeightOrder | SriBot.py:46-67 | the same for one pair of orders |
| Rebalancing.PlanGuarantees | SriBot.py:46-67 | on a dictionary with the placeholder, both the per-symbol facts and the weight order of the orders hold together |
| Portfolio.AsMap | SriBot.py:32 | the dictionary built by inserting the pairs one by one has exactly their keys |
| Portfolio.AsMapValues | SriBot.py:32 | inserting distinct keys binds each key to its own value |
| Portfolio.IndexOf | SriBot.py:61 | the position of the first occurrence of a key |
| Portfolio.IndexOfAppend | SriBot.py:46 | appending a key leaves existing keys' positions unchanged, and a new key goes last |
| Portfolio.Pop | SriBot.py:58 | `positionChanges.pop('$$$')`: the items without that key; never longer than the dictionary |
| Portfolio.PopItems | SriBot.py:58 | `pop` removes exactly the pairs with that key |
| Portfolio.PopKeys | SriBot.py:58 | `pop` removes exactly that key and keeps the rest a dictionary |
| Portfolio.PopKeepsOrder | SriBot.py:58 | `pop` keeps the relative order of the remaining keys |
| Bot.SriBot.constructor | SriBot.py:21-36 | a bot stores the validated weights, the holdings and the account equity |
| Bot.SriBot.Create | SriBot.py:5-36 | construction fails iff validation fails, with the same error; otherwise a new bot holds exactly the input weights, the holdings and the equity |
| Bot.SriBot.PlaceOrders | SriBot.py:61-67 | the trading loop issues exactly `Orders` of the change entries, in their order |
| Bot.SriBot.Rebalance | SriBot.py:45-67 | the two loops of `rebalance` produce exactly `Plan` of the bot's fields: the orders, in placement order, or `KeyError('$$$')`; on a constructed bot each weighted symbol other than `'$$$'` is sold, bought or skipped by the sign of its change, and the orders follow the weight order |
| Scenarios.ModerateAccepted | SriBot.py:86 | the start-up weights add up to exactly 1.0 and are stored as given |
| Scenarios.AcceptedAsGiven | SriBot.py:21-32 | non-negative weights totalling at most 1.0 are stored unchanged |
| Scenarios.ModerateSum | SriBot.py:86 | the start-up weights add up to exactly 1.0 |
| Scenarios.SumOfSix | SriBot.py:27 | the running sum of six pairs is their six weights added in order |
| Scenarios.ExceededAtSecondSymbol | SriBot.py:29-30 | `{A: 0.5, B: 0.6}` is refused for exceeding 1.0 |
| Scenarios.ErrorDependsOnOrder | SriBot.py:23-30 | the same three pairs in two orders raise different errors |
| Scenarios.BuysTowardTargets | SriBot.py:46-67 | with 1000 of equity and 500 held in A, weights A 0.6, B 0.4, `'$$$'` 0 buy 100 of A and 400 of B |
| Scenarios.SellsOverweight | SriBot.py:46-67 | an overweight position is sold down and one on target gets no order |
| Scenarios.WholeChange | SriBot.py:57 | a difference of whole millionths becomes its negation as the change entry |
| Scenarios.ThreeWeights | SriBot.py:45-67 | three weights with the placeholder last yield the orders of the first two changes, in order |
| Scenarios.ThreeChanges | SriBot.py:58-67 | popping the placeholder from three entries, the last being it, leaves the first two and their orders |
| Scenarios.NoPlaceholderNoOrders | SriBot.py:58 | without `'$$$'` rebalancing raises `KeyError('$$$')` |

## Left out

- Logging in (TOTP generation and `rs.login`, lines 16-19): credentials and the network are outside the model.
- Reading holdings and the account profile (`rs.build_holdings`, `rs.build_user_profile`, lines 35-36): `Create` takes their result as parameters. The holdings are a map from symbol to that holding's `'equity'` value, and the account appears as its `'equity'` value.
- A holding that exists but has no `'equity'` field: the code catches that `KeyError` too and counts the position as 0. The model has no such holding.
- A missing `'equity'` in the account profile, and string-to-float conversion errors (lines 50 and 53): the model starts from numbers.
- Placing orders (`rs.order_sell_fractional_by_price`, `rs.order_buy_fractional_by_price`, lines 64 and 67): an order is a value in the result. The `timeInForce='gfd'` and `extendedHours=True` arguments are the same on every call and are not modelled. In the code, an order call that raises stops the remaining orders; the model treats every order as placed.
- The logout in `raiseError` (line 81) and at the end of the main block (line 89): this is I/O. Raising the exception is modelled as the `Err` outcome. `Validation.Message` gives the message text.
- Floating point: weights, amounts and the running sum are exact reals. `round(x, 6)` is half-to-even on the exact value, not Python's correctly rounded binary value.
- Validation.AcceptanceIgnoresOrder: holds for exact sums only. With floats the order of summation can change acceptance near 1.0: `{A: 0.1, B: 0.34, C: 0.56}` is accepted, while `{C: 0.56, B: 0.34, A: 0.1}` sums to 1.0000000000000002 and is refused.
- Validation.SumPermutation: the same restriction; floating-point addition is not associative.
- The main block (lines 84-89) appears only as the `Moderate` scenario.
