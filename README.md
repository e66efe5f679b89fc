# Trading simulator ledger, modelled in Dafny

This project models the trading engine of a crypto trading simulator. The engine keeps one
account. That account holds a cash balance, a quantity per symbol and an append-only
transaction ledger. The engine serves buy and sell requests against a table of last prices
(symbol → price) and can reset the account. The backend revision also reports profit/loss
derived from the ledger.

There are two revisions of the engine, and they behave differently. Each is its own module:

- `Ledger` (`ledger.dfy`) holds what both revisions share:
  - the `Transaction` record and the `Account` state;
  - the price-key rule `CryptoKey`: a symbol trades under itself if the table quotes it, otherwise under `symbol + "/USD"`;
  - the per-symbol sums over the ledger;
  - the `Balanced` invariant: the ledger accounts for the balance and for every holding.
- `PersistedTrading` (`persisted_trading.dfy`) is the backend service:
  - failures are typed errors;
  - an amount `<= 0` is refused;
  - a holding that reaches zero is removed;
  - the opening balance is 10000;
  - profit/loss is derived from the ledger.
- `InMemoryTrading` (`in_memory_trading.dfy`) is the earlier in-memory service:
  - failures are error replies;
  - the amount's sign is never checked;
  - a sale overwrites the holding with `old - amount` and keeps the entry;
  - the opening balance is 100000.

Each revision has pure functions `Buy` and `Sell`. They map an account, a price snapshot, a
symbol and an amount to a `Step`: the reply and the account afterwards. Their postconditions
state the error conditions, the order in which errors take precedence, that nothing changes
on failure, and the exact new state on success. Each revision also has a `TradingService`
class with the source's fields. Its methods change those fields in place, as the Java code
does. Each method is proved to produce exactly the reply and the new state that `Buy` or
`Sell` gives. Lemmas over `Run`, which serves any sequence of requests, prove the invariants
each revision keeps:

- The persisted revision keeps the account `Sound` when quotes are non-negative:
  - the balance is never negative;
  - every stored holding is positive;
  - every trade has a positive quantity;
  - the ledger balances.
- The in-memory revision keeps only `Balanced`.

Money and quantities are exact `real`s in place of Java `double`s.

Three behaviours of the code that the model keeps as written:

- In the backend, a buy of a symbol whose resolved key is not in the price table makes
  `prices.get(key)` return null, and unboxing it throws at
  `backend/src/main/java/com/example/traidingsim/service/TradingService.java:90`, before
  anything changes. The model answers this with a generic `ServerFault` and leaves the
  account unchanged. The sell path throws the same way at line 119.
- Holdings and transactions are recorded under the symbol as typed ("BTC"), while
  profit/loss only looks at price-table keys ("BTC/USD"). Buying and then selling 0.1 "BTC"
  against a table keyed "BTC/USD" therefore leaves profit/loss empty;
  `PersistedTrading.BitcoinRoundTrip` proves this. The web client always sends table keys.
- Because holdings are keyed by the symbol as typed, not by the resolved price key, "BTC"
  and "BTC/USD" are separate holdings even when both trade at the "BTC/USD" price.

## Model

| member | source | states |
|---|---|---|
| `Ledger.CryptoKey` | backend/src/main/java/com/example/traidingsim/service/TradingService.java:193-196 | The key is the symbol itself or the symbol with "/USD". The symbol wins when quoted. The key is quoted iff the symbol or its "/USD" form is quoted. |
| `Ledger.CryptoKeyStable` | backend/src/main/java/com/example/traidingsim/service/TradingService.java:193-196 | A resolved, quoted key resolves to itself. |
| `Ledger.SameInstrument` | backend/src/main/java/com/example/traidingsim/service/TradingService.java:193-196 | When only `S/USD` is quoted, typing `S` or `S/USD` trades the same key. |
| `Ledger.NetHoldingAppend` | backend/src/main/java/com/example/traidingsim/service/TradingService.java:144-154 | Appending a trade moves its own symbol's bought-minus-sold quantity by the trade's signed amount. Every other symbol's net quantity stays the same. |
| `Ledger.BoughtIffSomeBuy` | backend/src/main/java/com/example/traidingsim/service/TradingService.java:139-156 | With positive trade quantities, the summed BUY amount for a symbol is non-negative. It is positive iff the ledger holds a BUY of that symbol. |
| `PersistedTrading.ValidateAmount` | backend/src/main/java/com/example/traidingsim/service/TradingService.java:187-191 | Returns `Some(InvalidAmount)` iff amount <= 0, otherwise `None`. `Buy` and `Sell` apply it before any other check. |
| `PersistedTrading.ValidateFunds` | backend/src/main/java/com/example/traidingsim/service/TradingService.java:208-212 | Returns `Some(InsufficientFunds(balance))`, carrying the current balance, iff the total cost exceeds the balance, otherwise `None`. `Buy` applies it after the price lookup. |
| `PersistedTrading.ValidateHoldings` | backend/src/main/java/com/example/traidingsim/service/TradingService.java:242-247 | Returns `Some(InsufficientHoldings(crypto))` iff the symbol is absent from the holdings or held < amount, otherwise `None`. `Sell` applies it after the amount check and before the price lookup. |
| `PersistedTrading.Buy` | backend/src/main/java/com/example/traidingsim/service/TradingService.java:84-104 | Buy fails iff nothing changes. Errors: InvalidAmount iff amount <= 0; a fault iff the resolved key is unquoted; InsufficientFunds iff price*amount > balance. On success: balance drops by price*amount and stays >= 0; the symbol's holding grows by amount; other holdings are unchanged; exactly one BUY transaction is appended. Positive holdings stay positive. |
| `PersistedTrading.Sell` | backend/src/main/java/com/example/traidingsim/service/TradingService.java:109-129 | Sell fails iff nothing changes. Errors: InvalidAmount iff amount <= 0; InsufficientHoldings iff the symbol is absent or held < amount, checked before the price; a fault iff the key is unquoted. On success: balance grows by price*amount; the entry is removed iff the rest is <= 0, otherwise it is set to held - amount; other holdings are unchanged; one SELL transaction is appended. |
| `PersistedTrading.OpenedIsSound` | backend/src/main/java/com/example/traidingsim/service/TradingService.java:40-44 | A new or reset account is sound: balance 10000 >= 0, no holdings, no trades, and the empty ledger balances. |
| `PersistedTrading.ApplyKeepsSound` | backend/src/main/java/com/example/traidingsim/service/TradingService.java:84-181 | A buy, sell or reset against non-negative quotes keeps these true: balance >= 0; stored holdings > 0; trade quantities > 0; balance = 10000 + ledger cash flow; each holding = bought - sold. |
| `PersistedTrading.RunKeepsSound` | backend/src/main/java/com/example/traidingsim/service/TradingService.java:84-181 | Any sequence of requests against non-negative quotes keeps a sound account sound. |
| `PersistedTrading.BuyThenSellRestores` | backend/src/main/java/com/example/traidingsim/service/TradingService.java:214-240 | A successful buy followed by a sell of the same amount at the same prices succeeds. It restores the balance and the holdings map exactly. The ledger gains exactly a BUY and then a SELL entry, each with the symbol, the amount, the resolved key's price p and the total p*amount. |
| `PersistedTrading.ResetIdempotent` | backend/src/main/java/com/example/traidingsim/service/TradingService.java:169-181 | Reset leads to balance 10000, no holdings and no transactions. Resetting twice equals resetting once. |
| `PersistedTrading.ProfitLossKeys` | backend/src/main/java/com/example/traidingsim/service/TradingService.java:138-161 | With positive trade quantities, profit/loss reports exactly the price-table symbols the ledger holds a BUY of. |
| `PersistedTrading.BitcoinRoundTrip` | backend/src/main/java/com/example/traidingsim/service/TradingService.java:84-164 | 0.1 "BTC" bought at a "BTC/USD" price of 50000 costs 5000, leaving balance 5000 and holdings {BTC: 0.1}. Selling it gives balance 10000 and no holdings. Profit/loss is then empty. |
| `PersistedTrading.TradingService.constructor` | backend/src/main/java/com/example/traidingsim/service/TradingService.java:40-44 | A new account has balance 10000, no holdings and no transactions. |
| `PersistedTrading.TradingService.BuyCrypto` | backend/src/main/java/com/example/traidingsim/service/TradingService.java:84-104 | The reply and the new fields are exactly those of `Buy` on the old fields. Stored holdings stay positive. |
| `PersistedTrading.TradingService.SellCrypto` | backend/src/main/java/com/example/traidingsim/service/TradingService.java:109-129 | The reply and the new fields are exactly those of `Sell` on the old fields. Stored holdings stay positive. |
| `PersistedTrading.TradingService.ResetAccount` | backend/src/main/java/com/example/traidingsim/service/TradingService.java:169-181 | The fields become balance 10000, no holdings and no transactions. |
| `PersistedTrading.TradingService.CalculateProfitLoss` | backend/src/main/java/com/example/traidingsim/service/TradingService.java:134-164 | The nested loops return, for each price-table symbol whose summed BUY amount is > 0, its SELL totals minus its BUY totals, and no other key. Nothing is changed. |
| `PersistedTrading.TradingService.UpdateAccountBalance` | backend/src/main/java/com/example/traidingsim/service/TradingService.java:214-217 | The balance decreases by the argument; a sale passes the negated revenue. |
| `PersistedTrading.TradingService.UpdateCryptoHoldingsOnBuy` | backend/src/main/java/com/example/traidingsim/service/TradingService.java:219-224 | The holding becomes `getOrDefault(crypto, 0) + amount`. |
| `PersistedTrading.TradingService.UpdateCryptoHoldingsOnSell` | backend/src/main/java/com/example/traidingsim/service/TradingService.java:226-240 | The holding is removed when `held - amount <= 0`, otherwise set to it. |
| `PersistedTrading.TradingService.SaveTransaction` | backend/src/main/java/com/example/traidingsim/service/TradingService.java:253-257 | Exactly one transaction with the given fields is appended. |
| `InMemoryTrading.Buy` | src/main/java/com/example/traidingsim/service/TradingService.java:62-86 | Buy errors iff nothing changes. Errors: "not available" iff the resolved key is unquoted; insufficient funds iff price*amount > balance. On success: balance drops by price*amount; the holding becomes old-or-0 + amount; other holdings are unchanged; one BUY transaction is appended. No sign check. |
| `InMemoryTrading.Sell` | src/main/java/com/example/traidingsim/service/TradingService.java:94-117 | Sell errors iff nothing changes. Errors: insufficient holdings iff the symbol is absent or held < amount, checked first; "not available" iff the key is unquoted. On success: the entry is set to held - amount and kept even at 0; balance grows by price*amount; one SELL transaction is appended. |
| `InMemoryTrading.OpenedIsBalanced` | src/main/java/com/example/traidingsim/service/TradingService.java:42-47 | A new or reset service is balanced: balance 100000 with an empty ledger and no holdings. |
| `InMemoryTrading.ApplyKeepsBalanced` | src/main/java/com/example/traidingsim/service/TradingService.java:62-127 | Any buy, sell or reset, whatever the amount and prices, keeps balance = 100000 + ledger cash flow and each holding = bought - sold. |
| `InMemoryTrading.RunKeepsBalanced` | src/main/java/com/example/traidingsim/service/TradingService.java:62-127 | Any sequence of requests keeps the ledger balanced. |
| `InMemoryTrading.ResetIdempotent` | src/main/java/com/example/traidingsim/service/TradingService.java:122-127 | Reset leads to balance 100000 with holdings and history cleared. Resetting twice equals resetting once. |
| `InMemoryTrading.NegativeBuyMintsCash` | src/main/java/com/example/traidingsim/service/TradingService.java:62-86 | Buying -1 BTC at 50000 succeeds, takes the balance from 100000 to 150000 and stores a holding of -1. |
| `InMemoryTrading.NegativeSellOverdraws` | src/main/java/com/example/traidingsim/service/TradingService.java:94-117 | After buying 0.1 BTC at 50000, selling -10 BTC succeeds, leaves the balance at -405000 and stores 10.1 BTC. |
| `InMemoryTrading.TradingService.constructor` | src/main/java/com/example/traidingsim/service/TradingService.java:42-47 | A new service has balance 100000, no holdings and no history. |
| `InMemoryTrading.TradingService.BuyCrypto` | src/main/java/com/example/traidingsim/service/TradingService.java:62-86 | The reply and the new fields are exactly those of `Buy` on the old fields. |
| `InMemoryTrading.TradingService.SellCrypto` | src/main/java/com/example/traidingsim/service/TradingService.java:94-117 | The reply and the new fields are exactly those of `Sell` on the old fields. |
| `InMemoryTrading.TradingService.ResetAccount` | src/main/java/com/example/traidingsim/service/TradingService.java:122-127 | The fields become balance 100000, no holdings and no history. |

## Left out

- Price feed: the WebSocket clients, JSON parsing of ticker messages, the subscription message and the STOMP broadcast are I/O. The price cache enters the model only as the `prices` argument of each operation, and `getCryptoPrices` is that argument.
- Persistence: repository calls (`findById`, `save`, `deleteAll`) are left out. The account row and the transaction table are the fields of one object, and the model always starts from a freshly created account. A start where account 1 already exists is not modelled: the source then keeps that row's balance and holdings, and the transaction table keeps its rows. `AccountNotFound` is a variant the model never produces, because the account always exists.
- The getters `getAccountBalance`, `getCryptoHoldings` and `getTransactionHistory` are direct reads of the fields. `Snapshot()` gives all three.
- The transaction timestamp is not modelled, because it reads the system clock.
- Java `double` semantics (rounding, NaN, infinities) are not modelled. Arithmetic is exact over `real`. A NaN amount, which passes `amount <= 0` in Java, is therefore not modelled.
- The text of confirmation and error messages is not modelled, because it depends on `double`-to-string formatting. Replies are tags that carry the same values. Log statements are left out.
- `calculateProfitLoss` also sums `totalAmountSold`, but never uses the value. The loop model does not keep it.
- The iteration order of the price-table keys in `calculateProfitLoss` is not modelled. The result is a map, so the order does not affect it.
- The HTTP controller, the exception handler and the web front end are not modelled.
- Concurrency is not modelled: the concurrent price map, and interleaved requests, which the code does not lock. Every operation is modelled as one atomic step.

## Findings

| source | as written | input that shows it | evidently intended | confidence | as-written member | corrected member |
|---|---|---|---|---|---|---|
| src/main/java/com/example/traidingsim/service/TradingService.java:62-86 | `buyCrypto` never checks the amount's sign. A negative amount has a negative cost, which always passes the funds check. | Prices {"BTC/USD": 50000}, fresh service, buy("BTC", -1): succeeds, balance 150000, holdings {BTC: -1}. | Refuse `amount <= 0`, as the backend revision's `validateAmount` does. Then no buy raises the balance or stores a non-positive holding. | high, not executed | `InMemoryTrading.NegativeBuyMintsCash` | `PersistedTrading.Buy` |
| src/main/java/com/example/traidingsim/service/TradingService.java:94-117 | `sellCrypto` never checks the amount's sign. The check `held < amount` lets a negative amount through, and the sale then removes cash. | Buy("BTC", 0.1) at 50000, then sell("BTC", -10): succeeds, balance -405000, holdings {BTC: 10.1}. | Refuse `amount <= 0` before the holdings check. Then the balance never goes negative over any sequence of requests. | high, not executed | `InMemoryTrading.NegativeSellOverdraws` | `PersistedTrading.RunKeepsSound` |
