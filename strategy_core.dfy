/**
 * The agent's quick order and capital query (trading_agent/strategy_core.py):
 * one market order for a symbol typed by the user, sized by a dollar
 * amount for a buy and by the whole coin balance for a sell.
 */
module Strategy {
  import opened Wrappers
  import opened Text
  import opened Exchange
  import BatchBuy

  /** The smallest quick order, in USDT. */
  const MinQuickOrderUsdt: real := 3.0

  /** What `execute_quick_order` answers, in place of the text it formats. */
  datatype QuickResult =
    | NoTrader                                          // the trader was never configured
    | PairNotFound(pair: string)                        // the exchange lists no such pair
    | PriceError(message: string)                       // the price could not be read
    | BelowMinimum(amount: real)                        // less than $3 requested
    | Bought(pair: string, amount: real, price: real)   // "✅ BUY …"
    | NothingToSell(coin: string)                       // no positive balance of the coin
    | Sold(pair: string, quantity: real)                // "✅ SELL …"
    | OrderError(error: string)                         // the executor refused: its error, "None" or "unknown"
    | UnknownSide(side: string)                         // neither buy nor sell
    | Raised(message: string)                           // an exception that reaches the caller

  /** The pair a quick order trades: upper-cased, `_USDT` appended unless already there. */
  function QuickPair(symbol: string): string {
    var up := Upper(symbol);
    if Contains(up, "_USDT") then up else up + "_USDT"
  }

  /**
   * The pair always names `_USDT`; normalising a pair again gives the same
   * pair; and for a symbol without `_USDT` the quick order trades the same
   * pair as the batch buy.
   */
  lemma QuickPairNormal(symbol: string)
    ensures Contains(QuickPair(symbol), "_USDT")
    ensures QuickPair(QuickPair(symbol)) == QuickPair(symbol)
    ensures !Contains(Upper(symbol), "_USDT") ==> QuickPair(symbol) == BatchBuy.FullPair(symbol)
  {
    var up := Upper(symbol);
    var pair := QuickPair(symbol);
    UpperIdempotent(symbol);
    if !Contains(up, "_USDT") {
      assert pair == up + "_USDT";
      assert pair[|up|..] == "_USDT";
      ContainsAt(pair, "_USDT", |up|);
      assert Upper(pair) == pair by {
        forall i | 0 <= i < |pair| ensures Upper(pair)[i] == pair[i] {
          if i < |up| {
            assert pair[i] == up[i] == Upper(up)[i];
          } else {
            assert pair[i] == "_USDT"[i - |up|];
          }
        }
      }
      ReplaceAbsent(up, "_USDT", "");
    } else {
      assert pair == up;
    }
  }

  /** `balances.get(coin, 0)` on the balance dictionary. */
  function BalanceOf(items: seq<(string, real)>, coin: string): (b: real)
    ensures (forall k :: 0 <= k < |items| ==> items[k].0 != coin) ==> b == 0.0
    ensures (exists k :: 0 <= k < |items| && items[k].0 == coin) ==>
      exists k :: 0 <= k < |items| && items[k].0 == coin && b == items[k].1
    decreases |items|
  {
    if items == [] then 0.0
    else if items[|items| - 1].0 == coin then items[|items| - 1].1
    else BalanceOf(items[..|items| - 1], coin)
  }

  /** The amount a quick order uses: the one given, or $10 capped at a fifth of the configured capital. */
  function QuickAmount(amount: Option<real>, capital: real): (a: real)
    ensures amount.None? ==> a <= 10.0 && a <= capital * 0.2 && (a == 10.0 || a == capital * 0.2)
    ensures amount.Some? ==> a == amount.value
  {
    if amount.Some? then amount.value
    else if 10.0 <= capital * 0.2 then 10.0 else capital * 0.2
  }

  /** The executor's error text for an order that did not succeed. */
  function ErrorText(reply: OrderReply): string {
    match reply
    case Refused(e) => if e.Some? then e.value else "None"
    case _ => "unknown"
  }

  /** The answer to an executed order. */
  function OrderAnswer(reply: OrderReply, success: QuickResult): QuickResult {
    match reply
    case Filled(_) => success
    case OrderRaised(m) => Raised(m)
    case _ => OrderError(ErrorText(reply))
  }

  /** What `execute_quick_order` answers once a trader is configured. */
  function QuickOutcome(capital: real, side: string, symbol: string, amount: Option<real>,
                        tickers: map<string, TickerReply>, balances: BalancesReply,
                        respond: Order -> OrderReply): QuickResult
  {
    var pair := QuickPair(symbol);
    match TickerFor(tickers, pair)
    case NoTicker => PairNotFound(pair)
    case TickerRaised(m) => PriceError(m)
    case Quote(price) =>
      var a := QuickAmount(amount, capital);
      if a < MinQuickOrderUsdt then BelowMinimum(a)
      else if Lower(side) == "buy" then
        if price == 0.0 then Raised("float division by zero")
        else OrderAnswer(respond(Order(pair, "buy", a / price)), Bought(pair, a, price))
      else if Lower(side) == "sell" then
        var coin := ReplaceAll(pair, "_USDT", "");
        match balances
        case BalancesRaised(m) => Raised(m)
        case Balances(items) =>
          var held := BalanceOf(items, coin);
          if held <= 0.0 then NothingToSell(coin)
          else OrderAnswer(respond(Order(pair, "sell", held)), Sold(pair, held))
      else UnknownSide(Lower(side))
  }

  /** The order `execute_quick_order` sends, if it gets that far. */
  function QuickOrder(capital: real, side: string, symbol: string, amount: Option<real>,
                      tickers: map<string, TickerReply>, balances: BalancesReply): Option<Order>
  {
    var pair := QuickPair(symbol);
    match TickerFor(tickers, pair)
    case Quote(price) =>
      var a := QuickAmount(amount, capital);
      if a < MinQuickOrderUsdt then None
      else if Lower(side) == "buy" then
        if price == 0.0 then None else Some(Order(pair, "buy", a / price))
      else if Lower(side) == "sell" && balances.Balances? then
        var held := BalanceOf(balances.items, ReplaceAll(pair, "_USDT", ""));
        if held <= 0.0 then None else Some(Order(pair, "sell", held))
      else None
    case _ => None
  }

  // ---------------------------------------------------------------------
  // Properties of the quick order

  /** Without a usable price nothing is ordered, whatever the side and amount. */
  lemma NoPriceNoOrder(capital: real, side: string, symbol: string, amount: Option<real>,
                       tickers: map<string, TickerReply>, balances: BalancesReply, respond: Order -> OrderReply)
    requires !TickerFor(tickers, QuickPair(symbol)).Quote?
    ensures QuickOrder(capital, side, symbol, amount, tickers, balances) == None
    ensures var r := QuickOutcome(capital, side, symbol, amount, tickers, balances, respond);
      r == PairNotFound(QuickPair(symbol)) || r.PriceError?
  {
  }

  /**
   * The $3 minimum is checked before the side: an amount below it is
   * refused for a sell as much as for a buy, and for a side that is neither.
   */
  lemma MinimumBeforeSide(capital: real, side: string, symbol: string, amount: Option<real>,
                          tickers: map<string, TickerReply>, balances: BalancesReply, respond: Order -> OrderReply)
    requires TickerFor(tickers, QuickPair(symbol)).Quote?
    requires QuickAmount(amount, capital) < MinQuickOrderUsdt
    ensures QuickOutcome(capital, side, symbol, amount, tickers, balances, respond) == BelowMinimum(QuickAmount(amount, capital))
    ensures QuickOrder(capital, side, symbol, amount, tickers, balances) == None
  {
  }

  /** With no amount given, a configured capital below $15 makes every quick order too small. */
  lemma SmallCapitalDefaultIsTooSmall(capital: real)
    requires capital < 15.0
    ensures QuickAmount(None, capital) < MinQuickOrderUsdt
  {
  }

  /** A buy orders the amount's worth of coins at the quoted price. */
  lemma BuyIsSizedByAmount(capital: real, side: string, symbol: string, amount: Option<real>,
                           tickers: map<string, TickerReply>, balances: BalancesReply, price: real)
    requires TickerFor(tickers, QuickPair(symbol)) == Quote(price) && price != 0.0
    requires Lower(side) == "buy" && QuickAmount(amount, capital) >= MinQuickOrderUsdt
    ensures QuickOrder(capital, side, symbol, amount, tickers, balances)
      == Some(Order(QuickPair(symbol), "buy", QuickAmount(amount, capital) / price))
  {
  }

  /**
   * A sell always sells the whole balance of the coin: two sells that pass
   * the minimum send the same order whatever amounts they were given, and
   * that order is for the positive balance held.
   */
  lemma SellIgnoresAmount(capital: real, side: string, symbol: string, a1: Option<real>, a2: Option<real>,
                          tickers: map<string, TickerReply>, balances: BalancesReply)
    requires TickerFor(tickers, QuickPair(symbol)).Quote? && Lower(side) == "sell"
    requires QuickAmount(a1, capital) >= MinQuickOrderUsdt && QuickAmount(a2, capital) >= MinQuickOrderUsdt
    ensures QuickOrder(capital, side, symbol, a1, tickers, balances) == QuickOrder(capital, side, symbol, a2, tickers, balances)
    ensures var o := QuickOrder(capital, side, symbol, a1, tickers, balances);
      o.Some? ==>
        balances.Balances? && o.value.side == "sell"
        && o.value.quantity == BalanceOf(balances.items, ReplaceAll(QuickPair(symbol), "_USDT", ""))
        && o.value.quantity > 0.0
  {
  }

  /** A side other than buy and sell is answered as an unknown command and sends nothing. */
  lemma UnknownSideOrdersNothing(capital: real, side: string, symbol: string, amount: Option<real>,
                                 tickers: map<string, TickerReply>, balances: BalancesReply, respond: Order -> OrderReply)
    requires TickerFor(tickers, QuickPair(symbol)).Quote? && QuickAmount(amount, capital) >= MinQuickOrderUsdt
    requires Lower(side) != "buy" && Lower(side) != "sell"
    ensures QuickOutcome(capital, side, symbol, amount, tickers, balances, respond) == UnknownSide(Lower(side))
    ensures QuickOrder(capital, side, symbol, amount, tickers, balances) == None
  {
  }

  /** The capital `get_capital` reports: a positive USDT balance, else the configured capital. */
  function CapitalFrom(usdt: Option<BalanceReply>, capital: real): (c: real)
    ensures c == capital || (usdt.Some? && usdt.value.Balance? && c == usdt.value.amount && c > 0.0)
    ensures usdt.Some? && usdt.value.Balance? && usdt.value.amount > 0.0 ==> c == usdt.value.amount
  {
    match usdt
    case Some(Balance(b)) => if b > 0.0 then b else capital
    case _ => capital
  }

  class TradingAgent {
    /** The configured capital (50.0 unless the configuration says otherwise). */
    const capital: real
    const dryRun: bool
    /** The exchange client, absent when the configuration gives no API keys. */
    const trader: Executor?

    constructor (capital: real, dryRun: bool, trader: Executor?)
      ensures this.capital == capital && this.dryRun == dryRun && this.trader == trader
    {
      this.capital := capital;
      this.dryRun := dryRun;
      this.trader := trader;
    }

    /** `get_capital`: the USDT balance when positive; a failed query falls back silently. */
    method GetCapital() returns (c: real)
      ensures c == CapitalFrom(if trader == null then None else Some(trader.usdt), capital)
      ensures c > 0.0 || c == capital
    {
      if trader != null {
        var balance := trader.GetUsdtBalance();
        match balance {
          case Balance(b) =>
            if b > 0.0 {
              return b;
            }
          case BalanceRaised(_) =>
        }
      }
      return capital;
    }

    /**
     * `execute_quick_order`: normalise the pair, read its price, settle the
     * amount and check the minimum, then buy for the amount or sell the
     * whole balance. Exceptions while ordering, while reading balances and
     * the division by a zero price are not caught and reach the caller.
     */
    method ExecuteQuickOrder(side: string, symbol: string, amount: Option<real>) returns (r: QuickResult)
      modifies trader
      ensures trader == null ==> r == NoTrader
      ensures trader != null ==>
        r == QuickOutcome(capital, side, symbol, amount, trader.tickers, trader.balances, trader.respond)
        && trader.placed == old(trader.placed) + BatchBuy.OrderList(QuickOrder(capital, side, symbol, amount, trader.tickers, trader.balances))
        && trader.queried == old(trader.queried) + [QuickPair(symbol)]
    {
      if trader == null {
        return NoTrader;
      }

      var pair := Upper(symbol);
      if !Contains(pair, "_USDT") {
        pair := pair + "_USDT";
      }

      var ticker := trader.ListTickers(pair);
      match ticker {
        case NoTicker =>
          return PairNotFound(pair);
        case TickerRaised(m) =>
          return PriceError(m);
        case Quote(_) =>
      }
      var price := ticker.last;

      var a: real;
      if amount.None? {
        a := if 10.0 <= capital * 0.2 then 10.0 else capital * 0.2;
      } else {
        a := amount.value;
      }
      if a < 3.0 {
        return BelowMinimum(a);
      }

      var lowSide := Lower(side);
      if lowSide == "buy" {
        if price == 0.0 {
          return Raised("float division by zero");
        }
        var coinAmount := a / price;
        var reply := trader.PlaceSpotOrder(pair, "buy", coinAmount);
        return OrderAnswer(reply, Bought(pair, a, price));
      } else if lowSide == "sell" {
        var coin := ReplaceAll(pair, "_USDT", "");
        var balances := trader.GetAllBalances();
        if balances.BalancesRaised? {
          return Raised(balances.message);
        }
        var held := BalanceOf(balances.items, coin);
        if held <= 0.0 {
          return NothingToSell(coin);
        }
        var reply := trader.PlaceSpotOrder(pair, "sell", held);
        return OrderAnswer(reply, Sold(pair, held));
      }
      return UnknownSide(lowSide);
    }
  }
}
