/**
 * The spot-exchange client the agent is given (a Gate.io executor), reduced
 * to the four calls the core makes on it. Its answers are fixed when it is
 * built; the pairs it is asked to quote and the orders it is sent are logged,
 * so that callers can state which calls they made and in what order.
 */
module Exchange {
  import opened Wrappers

  /**
   * `list_tickers(currency_pair=…)`: a last price, an empty list, or an
   * exception (an unparsable `last` field counts as one too).
   */
  datatype TickerReply = Quote(last: real) | NoTicker | TickerRaised(message: string)

  /** `get_all_balances()`: the currency/amount items in dictionary order, or an exception. */
  datatype BalancesReply = Balances(items: seq<(string, real)>) | BalancesRaised(message: string)

  /** `get_balance("USDT")`: the amount, or an exception. */
  datatype BalanceReply = Balance(amount: real) | BalanceRaised(message: string)

  /** One `place_spot_order(pair, side, str(quantity))` call. */
  datatype Order = Order(pair: string, side: string, quantity: real)

  /**
   * The answer to `place_spot_order`: a result with `success` and an order
   * id, a result without `success` and with an optional `error`, no result
   * object at all, or an exception.
   */
  datatype OrderReply = Filled(orderId: string) | Refused(error: Option<string>) | NoResult | OrderRaised(message: string)

  /** The quote the exchange gives for a pair; an unknown pair has an empty ticker list. */
  function TickerFor(tickers: map<string, TickerReply>, pair: string): TickerReply {
    if pair in tickers then tickers[pair] else NoTicker
  }

  class Executor {
    const tickers: map<string, TickerReply>
    const balances: BalancesReply
    const usdt: BalanceReply
    const respond: Order -> OrderReply
    /** Pairs `list_tickers` was asked about, oldest first. */
    ghost var queried: seq<string>
    /** Orders `place_spot_order` was sent, oldest first. */
    var placed: seq<Order>

    constructor (tickers: map<string, TickerReply>, balances: BalancesReply, usdt: BalanceReply, respond: Order -> OrderReply)
      ensures this.tickers == tickers && this.balances == balances && this.usdt == usdt && this.respond == respond
      ensures queried == [] && placed == []
    {
      this.tickers := tickers;
      this.balances := balances;
      this.usdt := usdt;
      this.respond := respond;
      queried := [];
      placed := [];
    }

    method ListTickers(pair: string) returns (reply: TickerReply)
      modifies this
      ensures reply == TickerFor(tickers, pair)
      ensures queried == old(queried) + [pair] && placed == old(placed)
    {
      reply := TickerFor(tickers, pair);
      queried := queried + [pair];
    }

    method GetAllBalances() returns (reply: BalancesReply)
      ensures reply == balances
    {
      reply := balances;
    }

    method GetUsdtBalance() returns (reply: BalanceReply)
      ensures reply == usdt
    {
      reply := usdt;
    }

    method PlaceSpotOrder(pair: string, side: string, quantity: real) returns (reply: OrderReply)
      modifies this
      ensures reply == respond(Order(pair, side, quantity))
      ensures placed == old(placed) + [Order(pair, side, quantity)] && queried == old(queried)
    {
      reply := respond(Order(pair, side, quantity));
      placed := placed + [Order(pair, side, quantity)];
    }
  }
}
