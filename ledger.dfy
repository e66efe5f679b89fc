/** Records and ledger arithmetic shared by both revisions of the trading engine:
    the transaction record, the single account's state, the price-key resolution
    rule, and the per-symbol sums that profit/loss and the ledger invariant use. */
module Ledger {

  datatype Option<T> = None | Some(value: T)

  /** Side of a trade (the source's `Type` enumeration). */
  datatype TradeType = BUY | SELL

  /** One committed trade. `total` is the cost of a BUY or the revenue of a SELL.
      The execution timestamp is not modelled. */
  datatype Transaction = Transaction(crypto: string, amount: real, price: real, total: real, kind: TradeType)

  /** The last-price table: symbol -> last traded price. */
  type PriceTable = map<string, real>

  /** The single account: cash balance, quantity held per symbol, and the
      transaction ledger in insertion order. */
  datatype Account = Account(balance: real, holdings: map<string, real>, history: seq<Transaction>)

  /** What one operation answers, and the account it leaves behind. */
  datatype Step<R> = Step(result: R, after: Account)

  /** A request to the engine, with the price snapshot it is served against. */
  datatype Request =
    | BuyOrder(prices: PriceTable, crypto: string, amount: real)
    | SellOrder(prices: PriceTable, crypto: string, amount: real)
    | ResetOrder

  /** The price-table key a user-supplied symbol trades under: the symbol itself
      when the table has it, otherwise the symbol quoted against USD. */
  function CryptoKey(crypto: string, prices: PriceTable): (key: string)
    ensures key == crypto || key == crypto + "/USD"
    ensures crypto in prices ==> key == crypto
    ensures key in prices <==> crypto in prices || crypto + "/USD" in prices
  {
    if crypto in prices then crypto else crypto + "/USD"
  }

  /** A resolved key resolves to itself. */
  lemma CryptoKeyStable(crypto: string, prices: PriceTable)
    requires CryptoKey(crypto, prices) in prices
    ensures CryptoKey(CryptoKey(crypto, prices), prices) == CryptoKey(crypto, prices)
  {
  }

  /** Typing `S` or `S/USD` trades the same instrument when only `S/USD` is quoted. */
  lemma SameInstrument(crypto: string, prices: PriceTable)
    requires crypto !in prices && crypto + "/USD" in prices
    ensures CryptoKey(crypto + "/USD", prices) == CryptoKey(crypto, prices) == crypto + "/USD"
  {
  }

  /** `getOrDefault(crypto, 0.0)` on the holdings map. */
  function Holding(holdings: map<string, real>, crypto: string): real
  {
    if crypto in holdings then holdings[crypto] else 0.0
  }

  /** Sum of the quantities of the `kind` transactions for `crypto`. */
  function AmountOf(txs: seq<Transaction>, crypto: string, kind: TradeType): real
    decreases |txs|
  {
    if txs == [] then 0.0
    else
      var t := txs[|txs| - 1];
      AmountOf(txs[..|txs| - 1], crypto, kind) + (if t.crypto == crypto && t.kind == kind then t.amount else 0.0)
  }

  /** Sum of the money totals of the `kind` transactions for `crypto`. */
  function TotalOf(txs: seq<Transaction>, crypto: string, kind: TradeType): real
    decreases |txs|
  {
    if txs == [] then 0.0
    else
      var t := txs[|txs| - 1];
      TotalOf(txs[..|txs| - 1], crypto, kind) + (if t.crypto == crypto && t.kind == kind then t.total else 0.0)
  }

  /** Net cash the ledger has moved: revenue of every SELL minus cost of every BUY. */
  function CashFlow(txs: seq<Transaction>): real
    decreases |txs|
  {
    if txs == [] then 0.0
    else
      var t := txs[|txs| - 1];
      CashFlow(txs[..|txs| - 1]) + (if t.kind == SELL then t.total else -t.total)
  }

  /** Quantity of `crypto` the ledger says is held: bought minus sold. */
  function NetHolding(txs: seq<Transaction>, crypto: string): real
  {
    AmountOf(txs, crypto, BUY) - AmountOf(txs, crypto, SELL)
  }

  lemma AmountOfAppend(txs: seq<Transaction>, t: Transaction, crypto: string, kind: TradeType)
    ensures AmountOf(txs + [t], crypto, kind)
         == AmountOf(txs, crypto, kind) + (if t.crypto == crypto && t.kind == kind then t.amount else 0.0)
  {
    assert (txs + [t])[..|txs|] == txs;
  }

  lemma CashFlowAppend(txs: seq<Transaction>, t: Transaction)
    ensures CashFlow(txs + [t]) == CashFlow(txs) + (if t.kind == SELL then t.total else -t.total)
  {
    assert (txs + [t])[..|txs|] == txs;
  }

  /** Appending a trade moves the net holding of its own symbol by its signed
      quantity and leaves every other symbol's net holding alone. */
  lemma NetHoldingAppend(txs: seq<Transaction>, t: Transaction)
    ensures forall c :: (NetHolding(txs + [t], c)
      == NetHolding(txs, c) + (if c != t.crypto then 0.0 else if t.kind == BUY then t.amount else -t.amount))
  {
    forall c
      ensures NetHolding(txs + [t], c)
        == NetHolding(txs, c) + (if c != t.crypto then 0.0 else if t.kind == BUY then t.amount else -t.amount)
    {
      AmountOfAppend(txs, t, c, BUY);
      AmountOfAppend(txs, t, c, SELL);
    }
  }

  /** The ledger accounts for the account: the balance is the opening balance plus
      the ledger's cash flow (every change of balance is the settlement of a
      recorded trade), and every symbol's held quantity is its net traded quantity. */
  ghost predicate Balanced(a: Account, opening: real)
  {
    && a.balance == opening + CashFlow(a.history)
    && forall c :: Holding(a.holdings, c) == NetHolding(a.history, c)
  }

  /** Every price in the table is non-negative. */
  predicate PricesNonNegative(prices: PriceTable)
  {
    forall k :: k in prices ==> prices[k] >= 0.0
  }

  /** A stored holding is strictly positive: absence means zero. */
  predicate HoldingsPositive(holdings: map<string, real>)
  {
    forall c :: c in holdings ==> holdings[c] > 0.0
  }

  /** Every committed trade has a positive quantity. */
  predicate AmountsPositive(txs: seq<Transaction>)
  {
    forall i :: 0 <= i < |txs| ==> txs[i].amount > 0.0
  }

  /** With positive quantities, the bought quantity of `crypto` is positive exactly
      when the ledger holds a BUY of `crypto`. */
  lemma {:induction false} BoughtIffSomeBuy(txs: seq<Transaction>, crypto: string)
    requires AmountsPositive(txs)
    ensures AmountOf(txs, crypto, BUY) >= 0.0
    ensures AmountOf(txs, crypto, BUY) > 0.0
        <==> exists i :: 0 <= i < |txs| && txs[i].crypto == crypto && txs[i].kind == BUY
    decreases |txs|
  {
    if txs != [] {
      var init := txs[..|txs| - 1];
      assert AmountsPositive(init) by {
        forall i | 0 <= i < |init| ensures init[i].amount > 0.0 {
          assert init[i] == txs[i];
        }
      }
      BoughtIffSomeBuy(init, crypto);
      var t := txs[|txs| - 1];
      if exists i :: 0 <= i < |init| && init[i].crypto == crypto && init[i].kind == BUY {
        var i :| 0 <= i < |init| && init[i].crypto == crypto && init[i].kind == BUY;
        assert txs[i] == init[i];
      }
      if exists i :: 0 <= i < |txs| && txs[i].crypto == crypto && txs[i].kind == BUY {
        var i :| 0 <= i < |txs| && txs[i].crypto == crypto && txs[i].kind == BUY;
        if i < |init| {
          assert init[i] == txs[i];
        }
      }
    }
  }
}
