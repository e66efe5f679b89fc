/** The in-memory revision of the trading engine: failures are answered as error
    replies rather than thrown, the amount's sign is never checked, a sale
    overwrites the holding with `old - amount` and never removes it, and the
    opening balance is 100000. The state is three fields of one `TradingService`
    object, changed in place. */
module InMemoryTrading {
  import opened Ledger

  const InitialBalance: real := 100000.0

  /** The reply of a trade: the confirmation, or one of the "Error: ..." answers. */
  datatype Reply =
    | Bought(amount: real, crypto: string, totalCost: real)
    | Sold(amount: real, crypto: string, totalRevenue: real)
    | NotAvailable
    | InsufficientFunds(balance: real)
    | InsufficientHoldings(crypto: string)

  predicate IsError(r: Reply)
  {
    r.NotAvailable? || r.InsufficientFunds? || r.InsufficientHoldings?
  }

  /** A freshly constructed or reset service. */
  const Opened: Account := Account(InitialBalance, map[], [])

  /** Buying `amount` of `crypto` against the price snapshot `prices`. */
  function Buy(a: Account, prices: PriceTable, crypto: string, amount: real): (s: Step<Reply>)
    ensures IsError(s.result) ==> s.after == a
    ensures s.result == NotAvailable <==> CryptoKey(crypto, prices) !in prices
    ensures s.result == InsufficientFunds(a.balance) <==>
              CryptoKey(crypto, prices) in prices && prices[CryptoKey(crypto, prices)] * amount > a.balance
    ensures s.result.Bought? <==>
              CryptoKey(crypto, prices) in prices && prices[CryptoKey(crypto, prices)] * amount <= a.balance
    ensures s.result.Bought? ==>
              var price := prices[CryptoKey(crypto, prices)];
              && s.result == Bought(amount, crypto, price * amount)
              && s.after.balance == a.balance - price * amount
              && crypto in s.after.holdings
              && s.after.holdings[crypto] == Holding(a.holdings, crypto) + amount
              && s.after.holdings - {crypto} == a.holdings - {crypto}
              && s.after.history == a.history + [Transaction(crypto, amount, price, price * amount, BUY)]
  {
    var key := CryptoKey(crypto, prices);
    if key !in prices then Step(NotAvailable, a)
    else
      var price := prices[key];
      var totalCost := price * amount;
      if totalCost > a.balance then Step(InsufficientFunds(a.balance), a)
      else
        Step(Bought(amount, crypto, totalCost),
             Account(a.balance - totalCost,
                     a.holdings[crypto := Holding(a.holdings, crypto) + amount],
                     a.history + [Transaction(crypto, amount, price, totalCost, BUY)]))
  }

  /** Selling `amount` of `crypto` against the price snapshot `prices`. The holdings
      check comes first; the entry is kept even when it reaches zero. */
  function Sell(a: Account, prices: PriceTable, crypto: string, amount: real): (s: Step<Reply>)
    ensures IsError(s.result) ==> s.after == a
    ensures s.result == InsufficientHoldings(crypto) <==> crypto !in a.holdings || a.holdings[crypto] < amount
    ensures s.result == NotAvailable <==>
              crypto in a.holdings && a.holdings[crypto] >= amount && CryptoKey(crypto, prices) !in prices
    ensures s.result.Sold? <==>
              crypto in a.holdings && a.holdings[crypto] >= amount && CryptoKey(crypto, prices) in prices
    ensures s.result.Sold? ==>
              var price := prices[CryptoKey(crypto, prices)];
              && s.result == Sold(amount, crypto, price * amount)
              && s.after.balance == a.balance + price * amount
              && crypto in s.after.holdings
              && s.after.holdings[crypto] == a.holdings[crypto] - amount
              && s.after.holdings - {crypto} == a.holdings - {crypto}
              && s.after.history == a.history + [Transaction(crypto, amount, price, price * amount, SELL)]
  {
    if crypto !in a.holdings || Holding(a.holdings, crypto) < amount then Step(InsufficientHoldings(crypto), a)
    else
      var key := CryptoKey(crypto, prices);
      if key !in prices then Step(NotAvailable, a)
      else
        var price := prices[key];
        var totalRevenue := price * amount;
        Step(Sold(amount, crypto, totalRevenue),
             Account(a.balance + totalRevenue,
                     a.holdings[crypto := a.holdings[crypto] - amount],
                     a.history + [Transaction(crypto, amount, price, totalRevenue, SELL)]))
  }

  /** The account after serving one request. */
  function Apply(a: Account, req: Request): Account
  {
    match req
    case BuyOrder(prices, crypto, amount) => Buy(a, prices, crypto, amount).after
    case SellOrder(prices, crypto, amount) => Sell(a, prices, crypto, amount).after
    case ResetOrder => Opened
  }

  /** The account after serving `reqs` in order. */
  function Run(a: Account, reqs: seq<Request>): Account
    decreases |reqs|
  {
    if reqs == [] then a else Run(Apply(a, reqs[0]), reqs[1..])
  }

  /** A new or reset service starts balanced. */
  lemma OpenedIsBalanced()
    ensures Balanced(Opened, InitialBalance)
  {
  }

  lemma ApplyKeepsBalanced(a: Account, req: Request)
    requires Balanced(a, InitialBalance)
    ensures Balanced(Apply(a, req), InitialBalance)
  {
    match req
    case ResetOrder =>
    case BuyOrder(prices, crypto, amount) =>
      var s := Buy(a, prices, crypto, amount);
      if s.result.Bought? {
        var t := s.after.history[|a.history|];
        CashFlowAppend(a.history, t);
        NetHoldingAppend(a.history, t);
        forall c ensures Holding(s.after.holdings, c) == NetHolding(s.after.history, c) {
          if c != crypto {
            assert c in s.after.holdings <==> c in a.holdings by {
              assert c in s.after.holdings <==> c in s.after.holdings - {crypto};
            }
            if c in a.holdings {
              assert s.after.holdings[c] == (s.after.holdings - {crypto})[c];
            }
          }
        }
      }
    case SellOrder(prices, crypto, amount) =>
      var s := Sell(a, prices, crypto, amount);
      if s.result.Sold? {
        var t := s.after.history[|a.history|];
        CashFlowAppend(a.history, t);
        NetHoldingAppend(a.history, t);
        forall c ensures Holding(s.after.holdings, c) == NetHolding(s.after.history, c) {
          if c != crypto {
            assert c in s.after.holdings <==> c in a.holdings by {
              assert c in s.after.holdings <==> c in s.after.holdings - {crypto};
            }
            if c in a.holdings {
              assert s.after.holdings[c] == (s.after.holdings - {crypto})[c];
            }
          }
        }
      }
  }

  /** Whatever the amounts and prices, the ledger keeps accounting for the balance
      and the holdings over any sequence of requests. */
  lemma {:induction false} RunKeepsBalanced(a: Account, reqs: seq<Request>)
    requires Balanced(a, InitialBalance)
    ensures Balanced(Run(a, reqs), InitialBalance)
    decreases |reqs|
  {
    if reqs != [] {
      ApplyKeepsBalanced(a, reqs[0]);
      RunKeepsBalanced(Apply(a, reqs[0]), reqs[1..]);
    }
  }

  /** Resetting is idempotent: both land on the opening account. */
  lemma ResetIdempotent(a: Account)
    ensures Apply(Apply(a, ResetOrder), ResetOrder) == Apply(a, ResetOrder) == Opened
  {
  }

  /** Nothing checks the amount's sign: buying -1 BTC at 50000 passes the funds
      check, adds 50000 to the balance and leaves a holding of -1. */
  lemma NegativeBuyMintsCash()
    ensures var s := Buy(Opened, map["BTC/USD" := 50000.0], "BTC", -1.0);
            && s.result == Bought(-1.0, "BTC", -50000.0)
            && s.after.balance == 150000.0
            && s.after.holdings == map["BTC" := -1.0]
  {
    var prices := map["BTC/USD" := 50000.0];
    assert "BTC" != "BTC/USD";
    assert CryptoKey("BTC", prices) == "BTC/USD";
  }

  /** Nothing checks the amount's sign: after buying 0.1 BTC at 50000, selling
      -10 BTC passes the holdings check (0.1 is not below -10) and drives the
      balance below zero. */
  lemma NegativeSellOverdraws()
    ensures var prices := map["BTC/USD" := 50000.0];
            var bought := Buy(Opened, prices, "BTC", 0.1);
            var sold := Sell(bought.after, prices, "BTC", -10.0);
            && sold.result == Sold(-10.0, "BTC", -500000.0)
            && sold.after.balance == -405000.0
            && sold.after.holdings == map["BTC" := 10.1]
  {
    var prices := map["BTC/USD" := 50000.0];
    assert "BTC" != "BTC/USD";
    assert CryptoKey("BTC", prices) == "BTC/USD";
    var bought := Buy(Opened, prices, "BTC", 0.1);
    assert bought.result.Bought?;
    assert bought.after.holdings == map["BTC" := 0.1];
  }

  /** The service as the in-memory revision keeps it. */
  class TradingService {
    var accountBalance: real
    var cryptoHoldings: map<string, real>
    var transactionHistory: seq<Transaction>

    function Snapshot(): Account
      reads this
    {
      Account(accountBalance, cryptoHoldings, transactionHistory)
    }

    constructor ()
      ensures Snapshot() == Opened
    {
      accountBalance := InitialBalance;
      cryptoHoldings := map[];
      transactionHistory := [];
    }

    method BuyCrypto(prices: PriceTable, crypto: string, amount: real) returns (r: Reply)
      modifies this
      ensures r == Buy(old(Snapshot()), prices, crypto, amount).result
      ensures Snapshot() == Buy(old(Snapshot()), prices, crypto, amount).after
    {
      var key := CryptoKey(crypto, prices);
      if key !in prices {
        return NotAvailable;
      }
      var price := prices[key];
      var totalCost := price * amount;
      if totalCost > accountBalance {
        return InsufficientFunds(accountBalance);
      }
      accountBalance := accountBalance - totalCost;
      cryptoHoldings := cryptoHoldings[crypto := Holding(cryptoHoldings, crypto) + amount];
      transactionHistory := transactionHistory + [Transaction(crypto, amount, price, totalCost, BUY)];
      r := Bought(amount, crypto, totalCost);
    }

    method SellCrypto(prices: PriceTable, crypto: string, amount: real) returns (r: Reply)
      modifies this
      ensures r == Sell(old(Snapshot()), prices, crypto, amount).result
      ensures Snapshot() == Sell(old(Snapshot()), prices, crypto, amount).after
    {
      if crypto !in cryptoHoldings || Holding(cryptoHoldings, crypto) < amount {
        return InsufficientHoldings(crypto);
      }
      var key := CryptoKey(crypto, prices);
      if key !in prices {
        return NotAvailable;
      }
      var price := prices[key];
      var totalRevenue := price * amount;
      cryptoHoldings := cryptoHoldings[crypto := cryptoHoldings[crypto] - amount];
      accountBalance := accountBalance + totalRevenue;
      transactionHistory := transactionHistory + [Transaction(crypto, amount, price, totalRevenue, SELL)];
      r := Sold(amount, crypto, totalRevenue);
    }

    method ResetAccount()
      modifies this
      ensures Snapshot() == Opened
    {
      accountBalance := InitialBalance;
      cryptoHoldings := map[];
      transactionHistory := [];
    }
  }
}
