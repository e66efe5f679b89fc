/** The persisted revision of the trading engine (backend service): failures are
    typed errors, a non-positive amount is refused, a holding that reaches zero is
    removed, the opening balance is 10000, and profit/loss is derived from the
    transaction ledger. The stored account row and the transaction table are the
    fields of one `TradingService` object. */
module PersistedTrading {
  import opened Ledger

  const InitialBalance: real := 10000.0

  /** The exceptions the engine throws. `AccountNotFound` is raised only when the
      account row is missing from storage, which this model never reaches;
      `ServerFault` is the unboxing failure of `prices.get(key)` on a missing key. */
  datatype Error =
    | InvalidAmount
    | InsufficientFunds(balance: real)
    | InsufficientHoldings(crypto: string)
    | AccountNotFound
    | ServerFault

  /** A completed trade (amount, symbol and the money moved) or the error thrown. */
  datatype Result =
    | Success(kind: TradeType, amount: real, crypto: string, value: real)
    | Failure(error: Error)

  /** A freshly created or reset account. */
  const Opened: Account := Account(InitialBalance, map[], [])

  /** `validateAmount`: a trade passes only with a positive amount. */
  function ValidateAmount(amount: real): (r: Option<Error>)
    ensures r.None? <==> amount > 0.0
    ensures r.Some? ==> r.value == InvalidAmount
  {
    if amount <= 0.0 then Some(InvalidAmount) else None
  }

  /** `validateFunds`: a purchase passes only when paying for it leaves a
      non-negative balance; the refusal reports the current balance. */
  function ValidateFunds(balance: real, totalCost: real): (r: Option<Error>)
    ensures r.None? <==> balance - totalCost >= 0.0
    ensures r.Some? ==> r.value == InsufficientFunds(balance)
  {
    if totalCost > balance then Some(InsufficientFunds(balance)) else None
  }

  /** `validateHoldings`: a sale passes only when the symbol is held and selling
      leaves a non-negative quantity of it. */
  function ValidateHoldings(holdings: map<string, real>, crypto: string, amount: real): (r: Option<Error>)
    ensures r.None? <==> crypto in holdings && holdings[crypto] - amount >= 0.0
    ensures r.Some? ==> r.value == InsufficientHoldings(crypto)
  {
    if crypto !in holdings || Holding(holdings, crypto) < amount then Some(InsufficientHoldings(crypto)) else None
  }

  /** The holdings map after buying `amount` of `crypto`. */
  function HoldingsOnBuy(holdings: map<string, real>, crypto: string, amount: real): map<string, real>
  {
    holdings[crypto := Holding(holdings, crypto) + amount]
  }

  /** The holdings map after selling `amount` of `crypto`: a quantity that drops
      to zero or below is removed rather than stored. */
  function HoldingsOnSell(holdings: map<string, real>, crypto: string, amount: real): map<string, real>
  {
    var newAmount := Holding(holdings, crypto) - amount;
    if newAmount <= 0.0 then holdings - {crypto} else holdings[crypto := newAmount]
  }

  /** Buying `amount` of `crypto` against the price snapshot `prices`. */
  function Buy(a: Account, prices: PriceTable, crypto: string, amount: real): (s: Step<Result>)
    ensures s.result.Failure? ==> s.after == a
    ensures s.result == Failure(InvalidAmount) <==> amount <= 0.0
    ensures s.result == Failure(ServerFault) <==> amount > 0.0 && CryptoKey(crypto, prices) !in prices
    ensures s.result == Failure(InsufficientFunds(a.balance)) <==>
              && amount > 0.0
              && CryptoKey(crypto, prices) in prices
              && prices[CryptoKey(crypto, prices)] * amount > a.balance
    ensures s.result.Success? <==>
              && amount > 0.0
              && CryptoKey(crypto, prices) in prices
              && prices[CryptoKey(crypto, prices)] * amount <= a.balance
    ensures s.result.Success? ==>
              var price := prices[CryptoKey(crypto, prices)];
              && s.result == Success(BUY, amount, crypto, price * amount)
              && s.after.balance == a.balance - price * amount
              && s.after.balance >= 0.0
              && Holding(s.after.holdings, crypto) == Holding(a.holdings, crypto) + amount
              && s.after.holdings - {crypto} == a.holdings - {crypto}
              && s.after.history == a.history + [Transaction(crypto, amount, price, price * amount, BUY)]
    ensures HoldingsPositive(a.holdings) ==> HoldingsPositive(s.after.holdings)
  {
    match ValidateAmount(amount)
    case Some(e) => Step(Failure(e), a)
    case None =>
      var key := CryptoKey(crypto, prices);
      if key !in prices then
        // `prices.get(key)` is null and unboxing it throws before anything changes
        Step(Failure(ServerFault), a)
      else
        var price := prices[key];
        var totalCost := price * amount;
        match ValidateFunds(a.balance, totalCost)
        case Some(e) => Step(Failure(e), a)
        case None =>
          Step(Success(BUY, amount, crypto, totalCost),
               Account(a.balance - totalCost,
                       HoldingsOnBuy(a.holdings, crypto, amount),
                       a.history + [Transaction(crypto, amount, price, totalCost, BUY)]))
  }

  /** Selling `amount` of `crypto` against the price snapshot `prices`. The holdings
      check comes before the price lookup. */
  function Sell(a: Account, prices: PriceTable, crypto: string, amount: real): (s: Step<Result>)
    ensures s.result.Failure? ==> s.after == a
    ensures s.result == Failure(InvalidAmount) <==> amount <= 0.0
    ensures s.result == Failure(InsufficientHoldings(crypto)) <==>
              amount > 0.0 && (crypto !in a.holdings || a.holdings[crypto] < amount)
    ensures s.result == Failure(ServerFault) <==>
              && amount > 0.0 && crypto in a.holdings && a.holdings[crypto] >= amount
              && CryptoKey(crypto, prices) !in prices
    ensures s.result.Success? <==>
              && amount > 0.0 && crypto in a.holdings && a.holdings[crypto] >= amount
              && CryptoKey(crypto, prices) in prices
    ensures s.result.Success? ==>
              var price := prices[CryptoKey(crypto, prices)];
              && s.result == Success(SELL, amount, crypto, price * amount)
              && s.after.balance == a.balance + price * amount
              && (crypto in s.after.holdings <==> a.holdings[crypto] > amount)
              && (crypto in s.after.holdings ==> s.after.holdings[crypto] == a.holdings[crypto] - amount)
              && s.after.holdings - {crypto} == a.holdings - {crypto}
              && s.after.history == a.history + [Transaction(crypto, amount, price, price * amount, SELL)]
    ensures HoldingsPositive(a.holdings) ==> HoldingsPositive(s.after.holdings)
  {
    match ValidateAmount(amount)
    case Some(e) => Step(Failure(e), a)
    case None =>
      match ValidateHoldings(a.holdings, crypto, amount)
      case Some(e) => Step(Failure(e), a)
      case None =>
        var key := CryptoKey(crypto, prices);
        if key !in prices then
          Step(Failure(ServerFault), a)
        else
          var price := prices[key];
          var totalRevenue := price * amount;
          // the balance update subtracts its argument, and a sale passes the negated revenue
          Step(Success(SELL, amount, crypto, totalRevenue),
               Account(a.balance - -totalRevenue,
                       HoldingsOnSell(a.holdings, crypto, amount),
                       a.history + [Transaction(crypto, amount, price, totalRevenue, SELL)]))
  }

  /** Profit/loss per price-table symbol that has a positive bought quantity:
      the revenue of its sales minus the cost of its purchases. */
  function ProfitLoss(prices: PriceTable, txs: seq<Transaction>): map<string, real>
  {
    map k | k in prices && AmountOf(txs, k, BUY) > 0.0 :: TotalOf(txs, k, SELL) - TotalOf(txs, k, BUY)
  }

  /** The account after serving one request. */
  function Apply(a: Account, req: Request): Account
  {
    match req
    case BuyOrder(prices, crypto, amount) => Buy(a, prices, crypto, amount).after
    case SellOrder(prices, crypto, amount) => Sell(a, prices, crypto, amount).after
    case ResetOrder => Opened
  }

  /** The account after serving `reqs` in order. */
  function Run(a: Account, reqs: seq<Request>): Account
    decreases |reqs|
  {
    if reqs == [] then a else Run(Apply(a, reqs[0]), reqs[1..])
  }

  /** Every price snapshot the requests are served against is non-negative. */
  predicate QuotesNonNegative(reqs: seq<Request>)
  {
    forall i :: 0 <= i < |reqs| && !reqs[i].ResetOrder? ==> PricesNonNegative(reqs[i].prices)
  }

  /** What the engine keeps true of the account: the balance is never negative,
      every stored holding is positive, every trade has a positive quantity, and
      the ledger accounts for the balance and the holdings. */
  ghost predicate Sound(a: Account)
  {
    && a.balance >= 0.0
    && HoldingsPositive(a.holdings)
    && AmountsPositive(a.history)
    && Balanced(a, InitialBalance)
  }

  /** A new or reset account starts sound. */
  lemma OpenedIsSound()
    ensures Sound(Opened)
  {
  }

  lemma ApplyKeepsSound(a: Account, req: Request)
    requires Sound(a)
    requires !req.ResetOrder? ==> PricesNonNegative(req.prices)
    ensures Sound(Apply(a, req))
  {
    match req
    case ResetOrder =>
    case BuyOrder(prices, crypto, amount) =>
      var s := Buy(a, prices, crypto, amount);
      if s.result.Success? {
        var t := s.after.history[|a.history|];
        CashFlowAppend(a.history, t);
        NetHoldingAppend(a.history, t);
        forall c ensures Holding(s.after.holdings, c) == NetHolding(s.after.history, c) {
          if c != crypto {
            assert c in s.after.holdings <==> c in a.holdings by {
              assert c in s.after.holdings <==> c in s.after.holdings - {crypto};
            }
            if c in a.holdings {
              assert s.after.holdings[c] == (s.after.holdings - {crypto})[c];
            }
          }
        }
      }
    case SellOrder(prices, crypto, amount) =>
      var s := Sell(a, prices, crypto, amount);
      if s.result.Success? {
        var price := prices[CryptoKey(crypto, prices)];
        assert price * amount >= 0.0;
        var t := s.after.history[|a.history|];
        CashFlowAppend(a.history, t);
        NetHoldingAppend(a.history, t);
        forall c ensures Holding(s.after.holdings, c) == NetHolding(s.after.history, c) {
          if c != crypto {
            assert c in s.after.holdings <==> c in a.holdings by {
              assert c in s.after.holdings <==> c in s.after.holdings - {crypto};
            }
            if c in a.holdings {
              assert s.after.holdings[c] == (s.after.holdings - {crypto})[c];
            }
          }
        }
      }
  }

  /** Any sequence of requests served against non-negative quotes keeps the account sound. */
  lemma {:induction false} RunKeepsSound(a: Account, reqs: seq<Request>)
    requires Sound(a)
    requires QuotesNonNegative(reqs)
    ensures Sound(Run(a, reqs))
    decreases |reqs|
  {
    if reqs != [] {
      ApplyKeepsSound(a, reqs[0]);
      assert QuotesNonNegative(reqs[1..]) by {
        forall i | 0 <= i < |reqs[1..]| && !reqs[1..][i].ResetOrder?
          ensures PricesNonNegative(reqs[1..][i].prices)
        {
          assert reqs[1..][i] == reqs[i + 1];
        }
      }
      RunKeepsSound(Apply(a, reqs[0]), reqs[1..]);
    }
  }

  /** A buy followed by a sale of the same amount at an unchanged price restores
      the balance and the holdings, and leaves both trades in the ledger. */
  lemma BuyThenSellRestores(a: Account, prices: PriceTable, crypto: string, amount: real)
    requires HoldingsPositive(a.holdings)
    requires Buy(a, prices, crypto, amount).result.Success?
    ensures var bought := Buy(a, prices, crypto, amount);
            var sold := Sell(bought.after, prices, crypto, amount);
            var p := prices[CryptoKey(crypto, prices)];
            && sold.result.Success?
            && sold.after.balance == a.balance
            && sold.after.holdings == a.holdings
            && sold.after.history == a.history + [Transaction(crypto, amount, p, p * amount, BUY),
                                                  Transaction(crypto, amount, p, p * amount, SELL)]
  {
    var bought := Buy(a, prices, crypto, amount);
    var sold := Sell(bought.after, prices, crypto, amount);
    assert sold.result.Success?;
    assert sold.after.holdings == a.holdings by {
      forall c ensures c in sold.after.holdings <==> c in a.holdings {
        if c != crypto {
          assert c in sold.after.holdings <==> c in sold.after.holdings - {crypto};
          assert c in bought.after.holdings <==> c in bought.after.holdings - {crypto};
        }
      }
      forall c | c in a.holdings ensures sold.after.holdings[c] == a.holdings[c] {
        if c != crypto {
          assert sold.after.holdings[c] == (sold.after.holdings - {crypto})[c];
          assert bought.after.holdings[c] == (bought.after.holdings - {crypto})[c];
        }
      }
    }
  }

  /** Resetting is idempotent: both land on the opening account. */
  lemma ResetIdempotent(a: Account)
    ensures Apply(Apply(a, ResetOrder), ResetOrder) == Apply(a, ResetOrder) == Opened
  {
  }

  /** With positive trade quantities, profit/loss reports exactly the price-table
      symbols the ledger holds a purchase of. */
  lemma ProfitLossKeys(prices: PriceTable, txs: seq<Transaction>)
    requires AmountsPositive(txs)
    ensures forall k :: k in ProfitLoss(prices, txs) <==>
              k in prices && exists i :: 0 <= i < |txs| && txs[i].crypto == k && txs[i].kind == BUY
  {
    forall k
      ensures k in ProfitLoss(prices, txs) <==>
              k in prices && exists i :: 0 <= i < |txs| && txs[i].crypto == k && txs[i].kind == BUY
    {
      BoughtIffSomeBuy(txs, k);
    }
  }

  /** The worked example: 0.1 BTC bought and sold at 50000 when only "BTC/USD"
      is quoted. Holdings and ledger record the symbol as typed, "BTC", while
      profit/loss only looks at price-table keys, so the report is empty. */
  lemma BitcoinRoundTrip()
    ensures var prices := map["BTC/USD" := 50000.0];
            var bought := Buy(Opened, prices, "BTC", 0.1);
            var sold := Sell(bought.after, prices, "BTC", 0.1);
            && bought.result == Success(BUY, 0.1, "BTC", 5000.0)
            && bought.after.balance == 5000.0
            && bought.after.holdings == map["BTC" := 0.1]
            && sold.result == Success(SELL, 0.1, "BTC", 5000.0)
            && sold.after.balance == 10000.0
            && sold.after.holdings == map[]
            && ProfitLoss(prices, sold.after.history) == map[]
  {
    var prices := map["BTC/USD" := 50000.0];
    assert "BTC" != "BTC/USD";
    assert CryptoKey("BTC", prices) == "BTC/USD";
    var buyTx := Transaction("BTC", 0.1, 50000.0, 5000.0, BUY);
    var sellTx := Transaction("BTC", 0.1, 50000.0, 5000.0, SELL);
    var bought := Buy(Opened, prices, "BTC", 0.1);
    assert bought.result.Success?;
    assert bought.after == Account(5000.0, map["BTC" := 0.1], [buyTx]) by {
      assert bought.after.holdings.Keys == {"BTC"};
    }
    var sold := Sell(bought.after, prices, "BTC", 0.1);
    assert sold.result.Success?;
    assert sold.after == Account(10000.0, map[], [buyTx, sellTx]) by {
      assert sold.after.holdings.Keys == {};
    }
    var pl := ProfitLoss(prices, sold.after.history);
    assert AmountOf(sold.after.history, "BTC/USD", BUY) == 0.0 by {
      AmountOfAppend([], buyTx, "BTC/USD", BUY);
      assert [buyTx, sellTx] == [buyTx] + [sellTx];
      AmountOfAppend([buyTx], sellTx, "BTC/USD", BUY);
    }
    assert pl.Keys == {};
  }

  /** The single account as the backend service keeps it: the account row's
      balance and holdings, and the transaction table. */
  class TradingService {
    var balance: real
    var holdings: map<string, real>
    var transactions: seq<Transaction>

    function Snapshot(): Account
      reads this
    {
      Account(balance, holdings, transactions)
    }

    ghost predicate Valid()
      reads this
    {
      HoldingsPositive(holdings)
    }

    constructor ()
      ensures Valid() && Snapshot() == Opened
    {
      balance := InitialBalance;
      holdings := map[];
      transactions := [];
    }

    method BuyCrypto(prices: PriceTable, crypto: string, amount: real) returns (r: Result)
      requires Valid()
      modifies this
      ensures Valid()
      ensures r == Buy(old(Snapshot()), prices, crypto, amount).result
      ensures Snapshot() == Buy(old(Snapshot()), prices, crypto, amount).after
    {
      var invalid := ValidateAmount(amount);
      if invalid.Some? {
        return Failure(invalid.value);
      }
      var key := CryptoKey(crypto, prices);
      if key !in prices {
        return Failure(ServerFault);
      }
      var price := prices[key];
      var totalCost := price * amount;
      var shortfall := ValidateFunds(balance, totalCost);
      if shortfall.Some? {
        return Failure(shortfall.value);
      }
      UpdateAccountBalance(totalCost);
      UpdateCryptoHoldingsOnBuy(crypto, amount);
      SaveTransaction(crypto, amount, price, totalCost, BUY);
      r := Success(BUY, amount, crypto, totalCost);
    }

    method SellCrypto(prices: PriceTable, crypto: string, amount: real) returns (r: Result)
      requires Valid()
      modifies this
      ensures Valid()
      ensures r == Sell(old(Snapshot()), prices, crypto, amount).result
      ensures Snapshot() == Sell(old(Snapshot()), prices, crypto, amount).after
    {
      var invalid := ValidateAmount(amount);
      if invalid.Some? {
        return Failure(invalid.value);
      }
      var lacking := ValidateHoldings(holdings, crypto, amount);
      if lacking.Some? {
        return Failure(lacking.value);
      }
      var key := CryptoKey(crypto, prices);
      if key !in prices {
        return Failure(ServerFault);
      }
      var price := prices[key];
      var totalRevenue := price * amount;
      UpdateAccountBalance(-totalRevenue);
      UpdateCryptoHoldingsOnSell(crypto, amount);
      SaveTransaction(crypto, amount, price, totalRevenue, SELL);
      r := Success(SELL, amount, crypto, totalRevenue);
    }

    method ResetAccount()
      modifies this
      ensures Valid() && Snapshot() == Opened
    {
      balance := InitialBalance;
      holdings := map[];
      transactions := [];
    }

    /** Profit/loss from the transaction table, one price-table symbol at a time.
        Reads the account and changes nothing. */
    method CalculateProfitLoss(prices: PriceTable) returns (profitLoss: map<string, real>)
      ensures profitLoss == ProfitLoss(prices, transactions)
    {
      profitLoss := map[];
      var txs := transactions;
      var pending := prices.Keys;
      while pending != {}
        invariant pending <= prices.Keys
        invariant forall k :: k in profitLoss <==> k in prices && k !in pending && AmountOf(txs, k, BUY) > 0.0
        invariant forall k :: k in profitLoss ==> profitLoss[k] == TotalOf(txs, k, SELL) - TotalOf(txs, k, BUY)
        decreases pending
      {
        var crypto :| crypto in pending;
        var totalBought, totalSold, totalAmountBought := 0.0, 0.0, 0.0;
        var i := 0;
        while i < |txs|
          invariant 0 <= i <= |txs|
          invariant totalBought == TotalOf(txs[..i], crypto, BUY)
          invariant totalSold == TotalOf(txs[..i], crypto, SELL)
          invariant totalAmountBought == AmountOf(txs[..i], crypto, BUY)
        {
          var t := txs[i];
          assert txs[..i + 1][..i] == txs[..i];
          if t.crypto == crypto {
            match t.kind
            case BUY =>
              totalBought := totalBought + t.total;
              totalAmountBought := totalAmountBought + t.amount;
            case SELL =>
              totalSold := totalSold + t.total;
          }
          i := i + 1;
        }
        assert txs[..i] == txs;
        if totalAmountBought > 0.0 {
          profitLoss := profitLoss[crypto := totalSold - totalBought];
        }
        pending := pending - {crypto};
      }
      assert profitLoss.Keys == ProfitLoss(prices, txs).Keys;
    }

    /** `updateAccountBalance`: subtracts its argument from the balance. */
    method UpdateAccountBalance(amount: real)
      modifies this`balance
      ensures balance == old(balance) - amount
    {
      balance := balance - amount;
    }

    method UpdateCryptoHoldingsOnBuy(crypto: string, amount: real)
      modifies this`holdings
      ensures holdings == HoldingsOnBuy(old(holdings), crypto, amount)
    {
      var updated := holdings;
      updated := updated[crypto := Holding(updated, crypto) + amount];
      holdings := updated;
    }

    method UpdateCryptoHoldingsOnSell(crypto: string, amount: real)
      modifies this`holdings
      ensures holdings == HoldingsOnSell(old(holdings), crypto, amount)
    {
      var updated := holdings;
      var currentAmount := Holding(updated, crypto);
      var newAmount := currentAmount - amount;
      if newAmount <= 0.0 {
        updated := updated - {crypto};
      } else {
        updated := updated[crypto := newAmount];
      }
      holdings := updated;
    }

    method SaveTransaction(crypto: string, amount: real, price: real, totalCost: real, kind: TradeType)
      modifies this`transactions
      ensures transactions == old(transactions) + [Transaction(crypto, amount, price, totalCost, kind)]
    {
      transactions := transactions + [Transaction(crypto, amount, price, totalCost, kind)];
    }
  }
}
