# Quonk trading ledger, modelled in Dafny

This project models the trading ledger of a chat bot for paper trading. Members
register, receive a balance of 10000, and trade at market prices that the bot
fetches and passes in. The repository contains the ledger in two versions, and
both are modelled here.

- **The Quonk ledger (`bot/database.py`, module `QuonkDatabase`).** The state has
  three parts:
  - MEMBERS, a set of ids;
  - CASH, a balance per id;
  - HOLDINGS, one row per (member, ticker) pair, with a share count, the last
    observed price and an accumulated value.

  Observing a price adds `shares * |p - last price|` to a position's value,
  whichever way the price moved. A sale observes the price first. It then
  settles every share sold at the position's value per share, rounded to six
  decimals. A leaderboard ranks members by the summed value of their holdings.

- **The lot ledger (`database.py`, module `LotDatabase`).** This is the earlier
  version. Every buy appends a lot `(member, ticker, +n, price)` and every sell
  appends `(member, ticker, -n, price)` to an append-only list. Share counts,
  profit and value are sums over a pair's lots. All of a pair's lots are deleted
  once its net share count is back to 0.

Both ledgers store amounts in DECIMAL(18, 6) columns, so the model counts money
as whole micro-units (`Money.MICRO` = 10^6 per unit).

The source's `trunc` helper rounds; it does not truncate. It is modelled as
`Money.Trunc`: round to the nearest micro-unit, ties to even, as Python's
`round(x, 6)` does. Python's `int(cash / price)` truncates toward zero and is
modelled as `Money.TruncDiv`.

Each ledger is a class whose methods update its fields as the SQL statements
update the tables. The pure queries of the lot ledger are recursive folds over
the list of lots. The scenario modules `QuonkScenarios` and `LotScenarios`
replay the repository's test files, tests/test_database.py and test_app.py,
against the model, with the tests' expected numbers in their postconditions.

### Behaviour worth noting

The model follows the code. These behaviours are stated and proved where they
show, each against the program's own text:

- **Buying into an existing Quonk holding.** `buy_quonks` first observes the
  price, then adds `n * price` to the value on top of that observation
  (bot/database.py:186, 192-197; `QuonkDatabase.Merged`).
- **Observing a pair that is not held.** The UPDATE of `observe_price` matches
  no row, so it is a silent no-op, not an error
  (bot/database.py:161-166; `QuonkDatabase.Database.ObservePrice`).
- **A position's value can go negative.** The `observe_price` docstring says
  observation "always increases" the value (bot/database.py:154-160), and the
  model proves that observation alone never lowers it. Settlement rounding in
  `sell_quonks` (bot/database.py:211-225) can still take a holding below zero.
  Buy 2 at 1 micro-unit, buy 4 more at 0, then sell 5 at 0. The position, 6
  shares worth 4, settles at round(4/6) = 1 each, and the one share left is
  valued at -1 (`QuonkScenarios.TopUpAtZero`,
  `QuonkScenarios.SettleFourOverSix`).
- **The leaderboard's figures.** The bot labels the board "Cash + Quonk Value"
  (bot/app.py:175). The query (bot/database.py:234-246) lists only members who
  hold something and ranks them by summed holding value alone. Its
  `SUM(b.cash)` over the join adds the balance once per holding row, so a
  member with two tickers has the balance counted twice
  (`QuonkScenarios.DoubleCountedCash`).
- **Profit in the lot ledger can be negative.** `get_profit` sums
  `shares * ABS(price - ?)` (database.py:112), and a sale lot has a negative
  share count, so it weighs its distance from the price negatively
  (`LotDatabase.ProfitCanBeNegative`).
- **A missing `validate_user`.** app.py imports `UserDoesNotExistException`
  from database.py and calls `db.validate_user` (app.py:4-10, 132, 153), but
  database.py defines neither (database.py:9-18). The lot model has no such
  operation.

## Model

| member | source | states |
|---|---|---|
| Money.Trunc | bot/database.py:92-93 | the result is within half a micro-unit of n/d, a tie goes to the even neighbour, and a non-negative amount stays non-negative |
| Money.TruncUnique | bot/database.py:92-93 | rounding yields the one integer strictly within half a step of n/d |
| Money.TruncGrid | database.py:53-54 | an amount already on the micro-unit grid is unchanged by `trunc`, so reading back a stored balance or price changes nothing |
| Money.TruncDiv | bot/database.py:173 | `int(cash / price)` is the quotient truncated toward zero: for cash >= 0 the largest r with r * price <= cash, for negative cash the mirror bound |
| Money.AffordableLimit | bot/database.py:172-181 | when an order costs more than a non-negative balance, the limit reported is the largest affordable share count and is below the count asked for |
| Tickers.Below | bot/database.py:140 | the order of `ORDER BY ticker` (also database.py:100); a proper prefix sorts before the longer ticker |
| Tickers.BelowTransitive | bot/database.py:140 | the order of `ORDER BY ticker` is transitive |
| Tickers.BelowTotal | bot/database.py:140 | any two different tickers are ordered one way or the other |
| Tickers.BelowIrreflexive | bot/database.py:140 | no ticker sorts before itself |
| Tickers.BelowAsymmetric | bot/database.py:140 | no two tickers sort before each other |
| Tickers.AscendingAtMost | bot/database.py:135-148 | an ascending listing names each ticker at most once |
| Tickers.TwoInOrder | tests/test_database.py:75-81 | an ascending listing of exactly the tickers a < b is [a, b] |
| Tickers.SortAscending | bot/database.py:135-148 | the listing is strictly ascending and holds exactly the tickers of the set, each once |
| QuonkDatabase.Observe | bot/database.py:161-166 | observing p keeps the share count, records p as last price, never lowers the value of a position with shares >= 0, and leaves the value unchanged exactly when there are no shares or the price did not move |
| QuonkDatabase.ObservationsAccumulate | bot/database.py:153-160 | a run of observations adds shares times the total price movement, keeps the shares, leaves the last price observed, and never lowers the value |
| QuonkDatabase.SettlementPrice | bot/database.py:211-217 | the per-share settlement price is value / shares rounded to a micro-unit, and is non-negative for a non-negative value |
| QuonkDatabase.Merged | bot/database.py:186-197 | topping up adds the new shares, records p, and raises the value by at least n * p beyond the old value |
| QuonkDatabase.Opened | bot/database.py:187-190 | a new row holds the shares bought, records the price, and is worth exactly what it cost |
| QuonkDatabase.SellAtOpeningPrice | bot/database.py:207-228 | a position opened at p and sold whole at p settles at p: the seller gets back exactly what was paid |
| QuonkDatabase.SaleKeepsPerShareValue | bot/database.py:218-225 | after a partial sale the remaining value differs from q per share by exactly the amount the value before the sale did, which is within half a share's worth |
| QuonkDatabase.ValueSumRemove | bot/database.py:236 | `SUM(value)` over a member's rows does not depend on the order in which rows are added |
| QuonkDatabase.Ranked | bot/database.py:240 | appending the richest unlisted member keeps the board distinct, correctly reported and in descending order |
| QuonkDatabase.Database.constructor | bot/database.py:69-90 | a new ledger has no members, balances or holdings |
| QuonkDatabase.Database.Register | bot/database.py:95-101 | a new id is added with a balance of exactly 10000; a known id is refused with UserExists and nothing changes |
| QuonkDatabase.Database.UserExists | bot/database.py:103-107 | true exactly for registered ids |
| QuonkDatabase.Database.ValidateUser | bot/database.py:109-111 | passes exactly for registered ids and fails with UserDoesNotExist otherwise |
| QuonkDatabase.Database.GetCash | bot/database.py:113-116 | returns the stored balance unchanged by rounding |
| QuonkDatabase.Database.AddCash | bot/database.py:118-121 | adds the delta rounded to a micro-unit, with no floor, and changes nothing else |
| QuonkDatabase.Database.Shares | bot/database.py:123-133 | the pair's share count is non-negative, and 0 exactly when the pair has no row |
| QuonkDatabase.Database.GetHoldings | bot/database.py:135-148 | the member's tickers, strictly ascending, exactly those with a row |
| QuonkDatabase.Database.GetHolding | bot/database.py:150-151 | a handle on the given pair of this ledger |
| QuonkDatabase.Database.ObservePrice | bot/database.py:153-166 | an existing row is observed at p; with no row the ledger is unchanged |
| QuonkDatabase.Database.BuyQuonks | bot/database.py:168-197 | an unaffordable order fails with the affordable limit (or a division by zero at price 0) and changes nothing; otherwise cash drops by exactly n * p and stays non-negative if it was, the row is opened at (n, p, n * p) or topped up, and the share count grows by n |
| QuonkDatabase.Database.SellQuonks | bot/database.py:199-228 | selling more than held fails with InvalidShares and changes nothing; otherwise the row is observed, q = round(value / shares) is returned, q * n is credited, shares and value drop by n and q * n, the row is deleted at 0 shares, and the share count drops by n |
| QuonkDatabase.Database.DeleteHoldings | bot/database.py:230-232 | removes exactly the pair's row and keeps the ledger valid |
| QuonkDatabase.Database.MemberTotals | bot/database.py:236-239 | `SUM(a.value)` and the row count over the member's rows |
| QuonkDatabase.Database.Richest | bot/database.py:240 | a candidate whose summed holding value is at least every other candidate's |
| QuonkDatabase.Database.Leaderboard | bot/database.py:234-246 | at most 10 lines, one per member with holdings and no member twice, in descending summed holding value, each reporting that sum plus the balance once per row, and no unlisted holder worth more than a listed one |
| QuonkDatabase.Holding.constructor | bot/database.py:22-26 | the handle names its ledger, member and ticker |
| QuonkDatabase.Holding.Shares | bot/database.py:28-36 | the row's share count, positive in a valid ledger |
| QuonkDatabase.Holding.Price | bot/database.py:38-46 | the stored last price, read through `trunc` unchanged |
| QuonkDatabase.Holding.Value | bot/database.py:48-56 | the stored value, read through `trunc` unchanged |
| QuonkScenarios.RegisterScenario | tests/test_database.py:25-46 | registration, `user_exists`, `validate_user` and the opening balance of 10000 behave as the tests expect |
| QuonkScenarios.AddCashScenario | tests/test_database.py:48-58 | +1, +1.00000009 and -10000 give balances 10001, 10002 and 2 |
| QuonkScenarios.BuyScenario | tests/test_database.py:60-73 | buying 10 at 10 takes the share count from 0 to 10 and opens a row (10, 10, 100) |
| QuonkScenarios.BuyLimitScenario | tests/test_database.py:93-99 | buying 5 at 1000 leaves 5000; 10000 at 10000 is refused with limit 0 |
| QuonkScenarios.ObserveScenario | tests/test_database.py:83-91 | observing 20 then 10 takes the value from 100 to 200 to 300, and selling all 10 then settles at 30, leaving 10200 |
| QuonkScenarios.SellScenario | tests/test_database.py:101-113 | an unheld sale is refused; selling 3 at 1200 and 2 at 800 credits 3 * 1200 and 2 * 1600 and empties the position |
| QuonkScenarios.HoldingsScenario | tests/test_database.py:75-81 | holdings bought as XYZ then ABC are listed ABC, XYZ |
| QuonkScenarios.DeleteScenario | tests/test_database.py:115-120 | deleting the pair takes its share count from 10 to 0 |
| QuonkScenarios.TopUpAtZero | bot/database.py:186-197 | 2 shares bought at 1 micro-unit and topped up with 4 at 0 make 6 shares worth 4 |
| QuonkScenarios.SettleFourOverSix | bot/database.py:211-225 | 6 shares worth 4 settle at 1 each, so selling 5 leaves one share valued at -1 |
| QuonkScenarios.DoubleCountedCash | bot/database.py:234-246 | a member with two rows worth 100 each and 9800 cash is reported at 200 + 2 * 9800 |
| LotDatabase.FoldsAppend | database.py:106-108 | appending a lot adds its contribution to the share count, cost basis and profit of its own pair, and makes the pair have lots |
| LotDatabase.NetShares | database.py:80-90 | `get_shares`: the net share count of the pair's lots, 0 when the pair has no lots (the query's NULL sum) |
| LotDatabase.CostBasis | database.py:123-131 | what the pair's lots cost, sales counted negative; 0 when the pair has no lots |
| LotDatabase.Profit | database.py:110-121 | `SUM(shares * ABS(price - p))` over the pair's lots, 0 when the pair has no lots (the missing row `get_profit` turns into 0) |
| LotDatabase.Value | database.py:123-131 | `SUM(shares * (price + ABS(price - p)))` equals the cost basis plus the profit, for every list of lots |
| LotDatabase.Without | database.py:168-170 | the DELETE never adds lots, and removes some exactly when the pair has lots |
| LotDatabase.ProfitWithoutSales | database.py:110-121 | while no lot is a sale, profit is non-negative |
| LotDatabase.ProfitCanBeNegative | database.py:110-121 | buying 10 at 10 and selling 5 at 30 leaves 5 shares with profit -100 at price 10 |
| LotDatabase.WithoutRemovesPair | database.py:168-170 | after the DELETE the pair has no lots, and every remaining lot was there before |
| LotDatabase.WithoutKeepsOthers | database.py:168-170 | the DELETE keeps every other pair's share count, cost basis and profit |
| LotDatabase.GetProfit | database.py:110-121 | `get_profit` is the profit fold, 0 with no lots |
| LotDatabase.GetValue | database.py:123-131 | `get_value` fails exactly when the pair has no lots, and otherwise is the cost basis plus the profit |
| LotDatabase.Database.constructor | database.py:31-51 | a new ledger has no members, balances or lots |
| LotDatabase.Database.Register | database.py:56-62 | a new id is added with a balance of exactly 10000; a known id is refused with UserExists and nothing changes |
| LotDatabase.Database.UserExists | database.py:64-68 | true exactly for registered ids |
| LotDatabase.Database.GetCash | database.py:70-73 | returns the stored balance unchanged by rounding |
| LotDatabase.Database.AddCash | database.py:75-78 | adds the delta rounded to a micro-unit, with no floor, and changes nothing else |
| LotDatabase.Database.AddHolding | database.py:106-108 | appends exactly one lot, unchecked, and the pair's share count grows by its shares |
| LotDatabase.Database.DeleteHoldings | database.py:168-170 | the lots become those without the pair, so the pair has no lots and 0 shares |
| LotDatabase.Database.GetHoldings | database.py:92-104 | one line per ticker the member has lots in, strictly ascending, each with its net share count |
| LotDatabase.Database.BuyStock | database.py:133-149 | a non-positive count fails with InvalidShares; an unaffordable order fails with the affordable limit (or a division by zero at price 0); either failure changes nothing; otherwise cash drops by exactly n * p, the lot (n, p) is appended, and the share count grows by n |
| LotDatabase.Database.SellStock | database.py:151-166 | a non-positive count or more than the net shares fails with InvalidShares and changes nothing; otherwise n * p is credited, the lot (-n, p) appended, all the pair's lots deleted when the net count reaches 0, and the share count drops by n |
| LotScenarios.RegisterScenario | test_app.py:24-39 | registration succeeds once and is then refused; `user_exists` flips; the opening balance is 10000 |
| LotScenarios.AddCashScenario | test_app.py:41-51 | +1, +1.00000009 and -10000 give balances 10001, 10002 and 2 |
| LotScenarios.SharesScenario | test_app.py:53-57 | no lots give 0 shares; one lot of 10 gives 10 |
| LotScenarios.BuyScenario | test_app.py:59-67 | buying 5 at 1000 leaves 5000 and 5 shares; an unaffordable order and a count of -1 are refused |
| LotScenarios.SellScenario | test_app.py:69-81 | unheld, negative and excess sales are refused; selling 3 then 2 takes 5 shares to 2 then 0 |
| LotScenarios.DeleteScenario | test_app.py:83-88 | deleting the pair takes its share count from 10 to 0 |
| LotScenarios.ProfitScenario | test_app.py:90-104 | every `get_profit` value the test expects, through two buys and two sales |
| LotScenarios.ValueScenario | test_app.py:106-117 | every `get_value` value the test expects, through two buys and a sale |
| LotScenarios.HoldingsScenario | test_app.py:119-125 | holdings bought as XYZ then ABC are listed ABC, XYZ |

## Left out

- Storage is not modelled. The DuckDB connection, schema creation and `clear` (bot/database.py:69-90, 248-251; database.py:31-51, 172-175) become class fields that start empty.
- The price source is not part of this model. bot/stocks.py and stocks.py fetch quotes over the network; prices are parameters here.
- The chat command handlers in bot/app.py and app.py are not part of this model.
- Floating point is not modelled. Amounts, prices and deltas are exact micro-unit integers; a delta is given as n/d micro-units, so sub-micro inputs such as 1.00000009 can be expressed. A price is taken as already on the micro-unit grid. The source multiplies by the unrounded float price before storing the rounded one; that difference is not captured.
- DECIMAL(18, 6) overflow and the 32-bit INTEGER share column are not modelled: amounts and share counts are unbounded integers.
- QuonkDatabase.Database.BuyQuonks: requires shares > 0 and price >= 0. The source never checks the count; the slash command's `min_value=1` does (bot/app.py:123).
- QuonkDatabase.Database.SellQuonks: requires shares > 0, for the same reason (bot/app.py:144).
- QuonkDatabase.Database.GetCash, AddCash and BuyQuonks: require a registered id. The source reads the missing balance row and fails with a TypeError; the bot's command handlers call `validate_user` first (bot/app.py:131, 152).
- LotDatabase.Database.GetCash and AddCash: require a registered id. The source fails with a TypeError on the missing balance row. Nothing in the lot version guards this: app.py calls a `validate_user` that database.py does not define (app.py:132, 153).
- LotDatabase.Database.BuyStock: requires a registered id only for a positive count. A non-positive count is refused before the balance is read (database.py:135-136), for any id; a positive count on an unregistered id fails with a TypeError in the source.
- LotDatabase.Database.SellStock: requires a registered id only when the pair has lots. Without lots every count is refused with InvalidShares before the balance is read (database.py:153-159), for any id. An unregistered id with lots, which only the unchecked AddHolding can create, fails with a TypeError in the source when the proceeds are credited.
- QuonkDatabase.Holding.Shares, Price and Value: require the pair's row to exist. The source fails with a TypeError on a missing row.
- QuonkDatabase.Database.BuyQuonks: NotEnoughCash carries only the limit. The source's two messages, for limit > 0 and for limit 0, are not distinguished.
- QuonkDatabase.Database.Leaderboard: the order among members with equal summed value is left open, as the SQL leaves it. The contract admits any such order.
- QuonkDatabase.Database.GetHoldings and LotDatabase.Database.GetHoldings: return complete sequences. The source yields lazily. The bot's listing holds tickers; GetHolding gives the live handle for each.
- LotDatabase.GetValue: returns None where the source fails by indexing a missing row (database.py:131).
