/**
 * The batch-buy planner (trading_agent/smart_batch_buy.py): one buy order
 * per requested coin, sized either at the target amount or, in rebalance
 * mode, at what is missing to reach it; each coin gets its own outcome and
 * nothing that goes wrong for one coin stops the others.
 */
module BatchBuy {
  import opened Wrappers
  import opened Text
  import opened Exchange
  import opened Positions

  /** The exchange's smallest order, in USDT. */
  const MinOrderUsdt: real := 3.0

  datatype OrderResult = Success | SkippedEnough | SkippedMinAmount | Failed | PairNotFound

  /** The `error` texts of a result, with the numbers they are formatted from. */
  datatype Note =
    | PairMissing                              // the pair is not listed on the exchange
    | AlreadyHeld(current: real, target: real) // "already $current >= $target"
    | BelowMinimum(requested: real)            // "minimum order $3.0, requested $…"
    | Raised(message: string)                  // the text of a caught exception
    | ExchangeError(message: string)           // the executor's own error text
    | UnknownError                             // the executor returned no result

  datatype BatchBuyResult = BatchBuyResult(
    symbol: string,
    result: OrderResult,
    amountUsdt: real,
    coinAmount: real,
    price: real,
    currentValue: real,
    orderId: Option<string>,
    error: Option<Note>)

  /** One line of the report per result. `topUp` selects "Докуплено" over "Куплено". */
  datatype ReportLine =
    | Bought(coin: string, topUp: bool, amountUsdt: real, coinAmount: real, price: real)
    | Enough(coin: string, currentValue: real)
    | TooSmall(coin: string, error: Option<Note>)
    | NotListed(coin: string)
    | Error(coin: string, error: Option<Note>)

  /** The report: mode and coin count of the header, the result lines, and the totals. */
  datatype Report = Report(
    rebalance: bool,
    coins: nat,
    lines: seq<ReportLine>,
    succeeded: nat,
    skipped: nat,
    failed: nat,
    spent: real)

  /** The pair a requested symbol is bought as: upper-cased, `_USDT` removed, then appended once. */
  function FullPair(symbol: string): string {
    ReplaceAll(Upper(symbol), "_USDT", "") + "_USDT"
  }

  /** Whatever the caller passes, the pair bought ends in `_USDT`. */
  lemma FullPairIsUsdtPair(symbol: string)
    ensures EndsWith(FullPair(symbol), "_USDT")
    ensures Contains(FullPair(symbol), "_USDT")
  {
    var clean := ReplaceAll(Upper(symbol), "_USDT", "");
    assert (clean + "_USDT")[|clean|..] == "_USDT";
    ContainsAt(clean + "_USDT", "_USDT", |clean|);
  }

  /** The pairs a batch asks the exchange to quote: one per requested symbol, in order. */
  function FullPairs(symbols: seq<string>): seq<string> {
    seq(|symbols|, i requires 0 <= i < |symbols| => FullPair(symbols[i]))
  }

  /** The pairs of one more symbol: the pair of that symbol comes last. */
  lemma FullPairsPrefix(symbols: seq<string>, i: nat)
    requires i < |symbols|
    ensures FullPairs(symbols)[..i + 1] == FullPairs(symbols)[..i] + [FullPair(symbols[i])]
  {
  }

  /** What a coin costs to buy: the target, less the held value in rebalance mode. */
  function Spend(target: real, rebalance: bool, current: real): real {
    if rebalance then target - current else target
  }

  /**
   * The outcome `_process_symbol` produces for one pair, given what the
   * exchange says about it, the held value the ledger reports and the
   * executor's answer to an order.
   */
  function Outcome(pair: string, target: real, rebalance: bool, dryRun: bool,
                   ticker: TickerReply, current: real, respond: Order -> OrderReply): BatchBuyResult
  {
    var start := BatchBuyResult(pair, Failed, 0.0, 0.0, 0.0, 0.0, None, None);
    match ticker
    case TickerRaised(m) => start.(error := Some(Raised(m)))
    case NoTicker => start.(result := PairNotFound, error := Some(PairMissing))
    case Quote(price) =>
      var priced := if rebalance then start.(price := price, currentValue := current) else start.(price := price);
      if rebalance && current >= target then
        priced.(result := SkippedEnough, error := Some(AlreadyHeld(current, target)))
      else
        var spend := Spend(target, rebalance, current);
        if spend < MinOrderUsdt then
          priced.(result := SkippedMinAmount, error := Some(BelowMinimum(spend)))
        else if price == 0.0 then
          priced.(error := Some(Raised("float division by zero")))
        else
          var sized := priced.(amountUsdt := spend, coinAmount := spend / price);
          if dryRun then sized.(result := Success, orderId := Some("DRY_RUN"))
          else match respond(Order(pair, "buy", spend / price))
            case Filled(id) => sized.(result := Success, orderId := Some(id))
            case Refused(e) => sized.(error := if e.Some? then Some(ExchangeError(e.value)) else None)
            case NoResult => sized.(error := Some(UnknownError))
            case OrderRaised(m) => sized.(error := Some(Raised(m)))
  }

  /** The order `_process_symbol` sends to the executor, if it gets that far. */
  function PlannedOrder(pair: string, target: real, rebalance: bool, dryRun: bool,
                        ticker: TickerReply, current: real): Option<Order>
  {
    match ticker
    case Quote(price) =>
      var spend := Spend(target, rebalance, current);
      if (rebalance && current >= target) || spend < MinOrderUsdt || price == 0.0 || dryRun then None
      else Some(Order(pair, "buy", spend / price))
    case _ => None
  }

  function OrderList(o: Option<Order>): seq<Order> {
    match o
    case Some(order) => [order]
    case None => []
  }

  /** The outcome for a requested symbol against an exchange and a ledger. */
  function OutcomeOf(symbol: string, target: real, rebalance: bool, dryRun: bool,
                     tickers: map<string, TickerReply>, positions: map<string, PositionInfo>,
                     respond: Order -> OrderReply): BatchBuyResult
  {
    var pair := FullPair(symbol);
    Outcome(pair, target, rebalance, dryRun, TickerFor(tickers, pair), ValueIn(positions, pair), respond)
  }

  /** The outcomes of a batch, one per requested symbol, in order. */
  function OutcomesOf(symbols: seq<string>, target: real, rebalance: bool, dryRun: bool,
                      tickers: map<string, TickerReply>, positions: map<string, PositionInfo>,
                      respond: Order -> OrderReply): seq<BatchBuyResult>
    decreases |symbols|
  {
    if symbols == [] then []
    else
      OutcomesOf(symbols[..|symbols| - 1], target, rebalance, dryRun, tickers, positions, respond)
      + [OutcomeOf(symbols[|symbols| - 1], target, rebalance, dryRun, tickers, positions, respond)]
  }

  /** `OutcomesOf` has the outcome of the i-th symbol at index i. */
  lemma {:induction false} OutcomesOfIndex(symbols: seq<string>, target: real, rebalance: bool, dryRun: bool,
                                           tickers: map<string, TickerReply>, positions: map<string, PositionInfo>,
                                           respond: Order -> OrderReply)
    ensures |OutcomesOf(symbols, target, rebalance, dryRun, tickers, positions, respond)| == |symbols|
    ensures forall i :: 0 <= i < |symbols| ==>
      OutcomesOf(symbols, target, rebalance, dryRun, tickers, positions, respond)[i]
      == OutcomeOf(symbols[i], target, rebalance, dryRun, tickers, positions, respond)
    decreases |symbols|
  {
    if symbols != [] {
      var prefix := symbols[..|symbols| - 1];
      OutcomesOfIndex(prefix, target, rebalance, dryRun, tickers, positions, respond);
      var before := OutcomesOf(prefix, target, rebalance, dryRun, tickers, positions, respond);
      var last := OutcomeOf(symbols[|symbols| - 1], target, rebalance, dryRun, tickers, positions, respond);
      assert OutcomesOf(symbols, target, rebalance, dryRun, tickers, positions, respond) == before + [last];
      forall i | 0 <= i < |symbols|
        ensures (before + [last])[i] == OutcomeOf(symbols[i], target, rebalance, dryRun, tickers, positions, respond)
      {
        if i < |prefix| {
          assert prefix[i] == symbols[i];
        }
      }
    }
  }

  /** The order sent for a requested symbol against an exchange and a ledger, if any. */
  function PlannedOrderOf(symbol: string, target: real, rebalance: bool, dryRun: bool,
                          tickers: map<string, TickerReply>, positions: map<string, PositionInfo>): Option<Order>
  {
    var pair := FullPair(symbol);
    PlannedOrder(pair, target, rebalance, dryRun, TickerFor(tickers, pair), ValueIn(positions, pair))
  }

  /** The orders a batch sends, in the order of the requested symbols. */
  function OrdersOf(symbols: seq<string>, target: real, rebalance: bool, dryRun: bool,
                    tickers: map<string, TickerReply>, positions: map<string, PositionInfo>): seq<Order>
    decreases |symbols|
  {
    if symbols == [] then []
    else
      OrdersOf(symbols[..|symbols| - 1], target, rebalance, dryRun, tickers, positions)
      + OrderList(PlannedOrderOf(symbols[|symbols| - 1], target, rebalance, dryRun, tickers, positions))
  }

  /** A batch one symbol longer has that symbol's outcome and order after the others'. */
  lemma BatchStep(symbols: seq<string>, i: nat, target: real, rebalance: bool, dryRun: bool,
                  tickers: map<string, TickerReply>, positions: map<string, PositionInfo>,
                  respond: Order -> OrderReply, results: seq<BatchBuyResult>, r: BatchBuyResult)
    requires i < |symbols|
    requires results == OutcomesOf(symbols[..i], target, rebalance, dryRun, tickers, positions, respond)
    requires r == OutcomeOf(symbols[i], target, rebalance, dryRun, tickers, positions, respond)
    ensures results + [r] == OutcomesOf(symbols[..i + 1], target, rebalance, dryRun, tickers, positions, respond)
    ensures OrdersOf(symbols[..i + 1], target, rebalance, dryRun, tickers, positions)
      == OrdersOf(symbols[..i], target, rebalance, dryRun, tickers, positions)
         + OrderList(PlannedOrderOf(symbols[i], target, rebalance, dryRun, tickers, positions))
  {
    assert symbols[..i + 1][..i] == symbols[..i];
  }

  /** The orders and quotes of one more symbol extend the logs of the symbols before it. */
  lemma LogStep(symbols: seq<string>, i: nat, target: real, rebalance: bool, dryRun: bool,
                tickers: map<string, TickerReply>, positions: map<string, PositionInfo>,
                placed0: seq<Order>, queried0: seq<string>,
                placed: seq<Order>, placed': seq<Order>, queried: seq<string>, queried': seq<string>)
    requires i < |symbols|
    requires placed == placed0 + OrdersOf(symbols[..i], target, rebalance, dryRun, tickers, positions)
    requires placed' == placed + OrderList(PlannedOrderOf(symbols[i], target, rebalance, dryRun, tickers, positions))
    requires queried == queried0 + FullPairs(symbols)[..i]
    requires queried' == queried + [FullPair(symbols[i])]
    ensures placed' == placed0 + OrdersOf(symbols[..i + 1], target, rebalance, dryRun, tickers, positions)
    ensures queried' == queried0 + FullPairs(symbols)[..i + 1]
  {
    assert symbols[..i + 1][..i] == symbols[..i];
    FullPairsPrefix(symbols, i);
  }

  /** `total_spent`: the sum of `amount_usdt` over the successful results only. */
  function TotalSpent(results: seq<BatchBuyResult>): real
    decreases |results|
  {
    if results == [] then 0.0
    else
      var last := results[|results| - 1];
      TotalSpent(results[..|results| - 1]) + (if last.result == Success then last.amountUsdt else 0.0)
  }

  lemma TotalSpentAppend(results: seq<BatchBuyResult>, r: BatchBuyResult)
    ensures TotalSpent(results + [r]) == TotalSpent(results) + (if r.result == Success then r.amountUsdt else 0.0)
  {
    assert (results + [r])[..|results|] == results;
  }

  /** How many results have one of the given kinds. */
  function CountOf(results: seq<BatchBuyResult>, kinds: set<OrderResult>): nat
    ensures CountOf(results, kinds) <= |results|
    decreases |results|
  {
    if results == [] then 0
    else CountOf(results[..|results| - 1], kinds) + (if results[|results| - 1].result in kinds then 1 else 0)
  }

  lemma CountStep(results: seq<BatchBuyResult>, i: nat, kinds: set<OrderResult>)
    requires i < |results|
    ensures CountOf(results[..i + 1], kinds) == CountOf(results[..i], kinds) + (if results[i].result in kinds then 1 else 0)
  {
    assert results[..i + 1][..i] == results[..i];
  }

  /** One more result adds one to exactly the count of its own group. */
  lemma TallyStep(results: seq<BatchBuyResult>, i: nat)
    requires i < |results|
    ensures CountOf(results[..i + 1], {Success}) == CountOf(results[..i], {Success}) + (if results[i].result == Success then 1 else 0)
    ensures CountOf(results[..i + 1], {SkippedEnough, SkippedMinAmount}) == CountOf(results[..i], {SkippedEnough, SkippedMinAmount})
      + (if results[i].result == SkippedEnough || results[i].result == SkippedMinAmount then 1 else 0)
    ensures CountOf(results[..i + 1], {PairNotFound, Failed}) == CountOf(results[..i], {PairNotFound, Failed})
      + (if results[i].result == PairNotFound || results[i].result == Failed then 1 else 0)
  {
    CountStep(results, i, {Success});
    CountStep(results, i, {SkippedEnough, SkippedMinAmount});
    CountStep(results, i, {PairNotFound, Failed});
  }

  /** The report line of one result. */
  function LineFor(r: BatchBuyResult, rebalance: bool): ReportLine {
    var coin := ReplaceAll(r.symbol, "_USDT", "");
    match r.result
    case Success => Bought(coin, rebalance && r.currentValue > 0.0, r.amountUsdt, r.coinAmount, r.price)
    case SkippedEnough => Enough(coin, r.currentValue)
    case SkippedMinAmount => TooSmall(coin, r.error)
    case PairNotFound => NotListed(coin)
    case Failed => Error(coin, r.error)
  }

  // ---------------------------------------------------------------------
  // Properties of one coin's outcome

  /** The result names the pair it was given, and an order, when sent, is a buy of that pair. */
  lemma OutcomeNamesPair(pair: string, target: real, rebalance: bool, dryRun: bool,
                         ticker: TickerReply, current: real, respond: Order -> OrderReply)
    ensures Outcome(pair, target, rebalance, dryRun, ticker, current, respond).symbol == pair
    ensures var o := PlannedOrder(pair, target, rebalance, dryRun, ticker, current);
      o.Some? ==> o.value.pair == pair && o.value.side == "buy"
  {
  }

  /** A pair the exchange does not list is reported as not found and nothing is ordered. */
  lemma MissingPairOrdersNothing(pair: string, target: real, rebalance: bool, dryRun: bool,
                                 current: real, respond: Order -> OrderReply)
    ensures Outcome(pair, target, rebalance, dryRun, NoTicker, current, respond).result == PairNotFound
    ensures Outcome(pair, target, rebalance, dryRun, NoTicker, current, respond).error == Some(PairMissing)
    ensures PlannedOrder(pair, target, rebalance, dryRun, NoTicker, current) == None
  {
  }

  /**
   * In rebalance mode a coin already held at or above the target is skipped
   * with nothing spent; below it, the spend is what is missing.
   */
  lemma RebalanceSpendsTheGap(pair: string, target: real, dryRun: bool, price: real,
                              current: real, respond: Order -> OrderReply)
    ensures var r := Outcome(pair, target, true, dryRun, Quote(price), current, respond);
      current >= target ==>
        r.result == SkippedEnough && r.amountUsdt == 0.0 && r.currentValue == current
        && PlannedOrder(pair, target, true, dryRun, Quote(price), current) == None
    ensures var r := Outcome(pair, target, true, dryRun, Quote(price), current, respond);
      current < target && r.result == Success ==> r.amountUsdt == target - current
  {
  }

  /** A spend below the 3.0 minimum is skipped in both modes and sends no order. */
  lemma BelowMinimumOrdersNothing(pair: string, target: real, rebalance: bool, dryRun: bool,
                                  price: real, current: real, respond: Order -> OrderReply)
    requires !(rebalance && current >= target)
    requires Spend(target, rebalance, current) < MinOrderUsdt
    ensures Outcome(pair, target, rebalance, dryRun, Quote(price), current, respond).result == SkippedMinAmount
    ensures Outcome(pair, target, rebalance, dryRun, Quote(price), current, respond).error
            == Some(BelowMinimum(Spend(target, rebalance, current)))
    ensures PlannedOrder(pair, target, rebalance, dryRun, Quote(price), current) == None
  {
  }

  /**
   * A dry run never sends an order; when the coin gets that far it succeeds
   * with the order id "DRY_RUN".
   */
  lemma DryRunOrdersNothing(pair: string, target: real, rebalance: bool, ticker: TickerReply,
                            current: real, respond: Order -> OrderReply)
    ensures PlannedOrder(pair, target, rebalance, true, ticker, current) == None
    ensures var r := Outcome(pair, target, rebalance, true, ticker, current, respond);
      r.result == Success ==> r.orderId == Some("DRY_RUN")
  {
  }

  /**
   * A success spent at least the minimum, exactly the planned spend, at a
   * non-zero price, for spend / price coins; a real success is the executor's
   * answer to exactly the planned order.
   */
  lemma SuccessIsSized(pair: string, target: real, rebalance: bool, dryRun: bool,
                       ticker: TickerReply, current: real, respond: Order -> OrderReply)
    requires Outcome(pair, target, rebalance, dryRun, ticker, current, respond).result == Success
    ensures ticker.Quote? && ticker.last != 0.0
    ensures var r := Outcome(pair, target, rebalance, dryRun, ticker, current, respond);
      r.amountUsdt == Spend(target, rebalance, current) && r.amountUsdt >= MinOrderUsdt
      && r.coinAmount == r.amountUsdt / ticker.last && r.price == ticker.last
    ensures !dryRun ==>
      PlannedOrder(pair, target, rebalance, dryRun, ticker, current).Some?
      && respond(PlannedOrder(pair, target, rebalance, dryRun, ticker, current).value).Filled?
  {
  }

  /**
   * Exchange and division failures become FAILED results carrying the
   * error: a zero price, an exception while quoting or ordering, and an
   * executor answer that is not a success.
   */
  lemma FailuresAreCaptured(pair: string, target: real, rebalance: bool, dryRun: bool,
                            ticker: TickerReply, current: real, respond: Order -> OrderReply)
    ensures ticker.TickerRaised? ==>
      Outcome(pair, target, rebalance, dryRun, ticker, current, respond).result == Failed
      && Outcome(pair, target, rebalance, dryRun, ticker, current, respond).error == Some(Raised(ticker.message))
    ensures ticker == Quote(0.0) && !(rebalance && current >= target) && Spend(target, rebalance, current) >= MinOrderUsdt ==>
      Outcome(pair, target, rebalance, dryRun, ticker, current, respond).result == Failed
      && Outcome(pair, target, rebalance, dryRun, ticker, current, respond).error == Some(Raised("float division by zero"))
      && PlannedOrder(pair, target, rebalance, dryRun, ticker, current) == None
    ensures var o := PlannedOrder(pair, target, rebalance, dryRun, ticker, current);
      o.Some? && !respond(o.value).Filled? ==>
        Outcome(pair, target, rebalance, dryRun, ticker, current, respond).result == Failed
  {
  }

  /**
   * The worked rebalance cases: holding $12 against a $10 target skips as
   * already funded; holding nothing against $2 skips as below the minimum;
   * holding $4 against $10 buys $6 worth, 6 / price coins.
   */
  lemma RebalanceExamples(pair: string, price: real, respond: Order -> OrderReply)
    requires price > 0.0
    ensures Outcome(pair, 10.0, true, false, Quote(price), 12.0, respond).result == SkippedEnough
    ensures Outcome(pair, 2.0, true, false, Quote(price), 0.0, respond).result == SkippedMinAmount
    ensures PlannedOrder(pair, 10.0, true, false, Quote(price), 4.0) == Some(Order(pair, "buy", 6.0 / price))
    ensures Outcome(pair, 10.0, true, true, Quote(price), 4.0, respond).amountUsdt == 6.0
  {
  }

  // ---------------------------------------------------------------------
  // Properties of the report

  /** Every result is counted exactly once: as a success, a skip, or a failure. */
  lemma {:induction false} CountsPartition(results: seq<BatchBuyResult>)
    ensures CountOf(results, {Success}) + CountOf(results, {SkippedEnough, SkippedMinAmount})
            + CountOf(results, {PairNotFound, Failed}) == |results|
    decreases |results|
  {
    if results != [] {
      CountsPartition(results[..|results| - 1]);
      match results[|results| - 1].result
      case Success =>
      case SkippedEnough =>
      case SkippedMinAmount =>
      case PairNotFound =>
      case Failed =>
    }
  }

  /** The amount spent is the sum over successes; a batch of non-negative spends spent nothing negative. */
  lemma {:induction false} SpentOnlyOnSuccess(results: seq<BatchBuyResult>)
    requires forall i :: 0 <= i < |results| ==> results[i].amountUsdt >= 0.0
    ensures TotalSpent(results) >= 0.0
    ensures CountOf(results, {Success}) == 0 ==> TotalSpent(results) == 0.0
    decreases |results|
  {
    if results != [] {
      SpentOnlyOnSuccess(results[..|results| - 1]);
    }
  }

  /** A dry-run batch sends no order at all. */
  lemma {:induction false} DryRunBatchOrdersNothing(symbols: seq<string>, target: real, rebalance: bool,
                                                    tickers: map<string, TickerReply>, positions: map<string, PositionInfo>)
    ensures OrdersOf(symbols, target, rebalance, true, tickers, positions) == []
    decreases |symbols|
  {
    if symbols != [] {
      DryRunBatchOrdersNothing(symbols[..|symbols| - 1], target, rebalance, tickers, positions);
      var pair := FullPair(symbols[|symbols| - 1]);
      DryRunOrdersNothing(pair, target, rebalance, TickerFor(tickers, pair), ValueIn(positions, pair), x => NoResult);
    }
  }

  class SmartBatchBuy {
    const trader: Executor
    const positionManager: PositionManager

    constructor (trader: Executor, positionManager: PositionManager)
      ensures this.trader == trader && this.positionManager == positionManager
    {
      this.trader := trader;
      this.positionManager := positionManager;
    }

    /**
     * `execute`: refresh the ledger once when rebalancing, then one outcome
     * per requested symbol, in order, all against that one snapshot; the
     * orders sent are exactly the planned ones, and the report is built from
     * the results and the amount spent on successes.
     */
    method Execute(symbols: seq<string>, amountPerCoin: real, rebalance: bool, dryRun: bool)
      returns (results: seq<BatchBuyResult>, report: Report)
      modifies positionManager, positionManager.trader, trader
      ensures positionManager.refreshes == old(positionManager.refreshes) + (if rebalance then 1 else 0)
      ensures rebalance ==> positionManager.positions == Refreshed(positionManager.trader.balances, positionManager.trader.tickers)
      ensures !rebalance ==> positionManager.positions == old(positionManager.positions)
      ensures |results| == |symbols|
      ensures forall i :: 0 <= i < |symbols| ==>
        results[i] == OutcomeOf(symbols[i], amountPerCoin, rebalance, dryRun, trader.tickers, positionManager.positions, trader.respond)
      ensures trader.placed == old(trader.placed)
        + OrdersOf(symbols, amountPerCoin, rebalance, dryRun, trader.tickers, positionManager.positions)
      ensures trader.queried == old(trader.queried)
        + (if rebalance && positionManager.trader == trader then RefreshQuotes(trader.balances) else [])
        + FullPairs(symbols)
      ensures report.spent == TotalSpent(results)
      ensures report.coins == |results| && report.rebalance == rebalance
      ensures |report.lines| == |results|
      ensures forall i :: 0 <= i < |results| ==> report.lines[i] == LineFor(results[i], rebalance)
      ensures report.succeeded == CountOf(results, {Success})
      ensures report.skipped == CountOf(results, {SkippedEnough, SkippedMinAmount})
      ensures report.failed == CountOf(results, {PairNotFound, Failed})
      ensures report.succeeded + report.skipped + report.failed == |results|
    {
      if rebalance {
        var _ := positionManager.Refresh();
      }
      assert trader.queried == old(trader.queried)
        + (if rebalance && positionManager.trader == trader then RefreshQuotes(trader.balances) else []);
      var totalSpent;
      results, totalSpent := BuyEach(symbols, amountPerCoin, rebalance, dryRun);
      OutcomesOfIndex(symbols, amountPerCoin, rebalance, dryRun, trader.tickers, positionManager.positions, trader.respond);
      report := FormatReport(results, totalSpent, rebalance);
    }

    /** The loop of `execute`: one outcome per symbol against a ledger that stays as it is. */
    method BuyEach(symbols: seq<string>, amountPerCoin: real, rebalance: bool, dryRun: bool)
      returns (results: seq<BatchBuyResult>, totalSpent: real)
      modifies trader
      ensures results == OutcomesOf(symbols, amountPerCoin, rebalance, dryRun, trader.tickers, positionManager.positions, trader.respond)
      ensures trader.placed == old(trader.placed)
        + OrdersOf(symbols, amountPerCoin, rebalance, dryRun, trader.tickers, positionManager.positions)
      ensures totalSpent == TotalSpent(results)
      ensures trader.queried == old(trader.queried) + FullPairs(symbols)
    {
      results := [];
      totalSpent := 0.0;
      assert FullPairs(symbols)[..0] == [];
      for i := 0 to |symbols|
        invariant Progress(symbols, i, amountPerCoin, rebalance, dryRun, results, totalSpent, old(trader.placed), old(trader.queried))
      {
        results, totalSpent := BuyNext(symbols, i, amountPerCoin, rebalance, dryRun, results, totalSpent,
                                       old(trader.placed), old(trader.queried));
      }
      assert symbols[..|symbols|] == symbols;
      assert FullPairs(symbols)[..|symbols|] == FullPairs(symbols);
    }

    /**
     * How far the loop of `execute` has got after i symbols: their outcomes,
     * the amount spent on the successes, and the orders and quotes the
     * exchange has seen since the start.
     */
    ghost predicate Progress(symbols: seq<string>, i: nat, amountPerCoin: real, rebalance: bool, dryRun: bool,
                             results: seq<BatchBuyResult>, totalSpent: real, placed0: seq<Order>, queried0: seq<string>)
      reads this, trader, positionManager
      requires i <= |symbols|
    {
      results == OutcomesOf(symbols[..i], amountPerCoin, rebalance, dryRun, trader.tickers, positionManager.positions, trader.respond)
      && totalSpent == TotalSpent(results)
      && trader.placed == placed0 + OrdersOf(symbols[..i], amountPerCoin, rebalance, dryRun, trader.tickers, positionManager.positions)
      && trader.queried == queried0 + FullPairs(symbols)[..i]
    }

    /** One turn of the loop of `execute`: the next symbol's outcome, order and quote. */
    method BuyNext(symbols: seq<string>, i: nat, amountPerCoin: real, rebalance: bool, dryRun: bool,
                   results: seq<BatchBuyResult>, totalSpent: real, ghost placed0: seq<Order>, ghost queried0: seq<string>)
      returns (results': seq<BatchBuyResult>, totalSpent': real)
      requires i < |symbols|
      requires Progress(symbols, i, amountPerCoin, rebalance, dryRun, results, totalSpent, placed0, queried0)
      modifies trader
      ensures Progress(symbols, i + 1, amountPerCoin, rebalance, dryRun, results', totalSpent', placed0, queried0)
    {
      ghost var placed, queried := trader.placed, trader.queried;
      var result := ProcessSymbol(symbols[i], amountPerCoin, rebalance, dryRun);
      BatchStep(symbols, i, amountPerCoin, rebalance, dryRun, trader.tickers, positionManager.positions, trader.respond, results, result);
      LogStep(symbols, i, amountPerCoin, rebalance, dryRun, trader.tickers, positionManager.positions,
              placed0, queried0, placed, trader.placed, queried, trader.queried);
      TotalSpentAppend(results, result);
      totalSpent' := if result.result == Success then totalSpent + result.amountUsdt else totalSpent;
      results' := results + [result];
    }

    /** `_process_symbol`: the outcome for one coin, with the order it sends, if any. */
    method ProcessSymbol(symbol: string, target: real, rebalance: bool, dryRun: bool) returns (r: BatchBuyResult)
      modifies trader
      ensures r == OutcomeOf(symbol, target, rebalance, dryRun, trader.tickers, positionManager.positions, trader.respond)
      ensures trader.placed == old(trader.placed)
        + OrderList(PlannedOrderOf(symbol, target, rebalance, dryRun, trader.tickers, positionManager.positions))
      ensures trader.queried == old(trader.queried) + [FullPair(symbol)]
    {
      var clean := ReplaceAll(Upper(symbol), "_USDT", "");
      var pair := clean + "_USDT";
      r := BatchBuyResult(pair, Failed, 0.0, 0.0, 0.0, 0.0, None, None);

      var ticker := trader.ListTickers(pair);
      match ticker {
        case TickerRaised(m) =>
          r := r.(result := Failed, error := Some(Raised(m)));
          return;
        case NoTicker =>
          r := r.(result := PairNotFound, error := Some(PairMissing));
          return;
        case Quote(_) =>
      }
      var price := ticker.last;
      r := r.(price := price);

      var spend: real;
      if rebalance {
        var current := positionManager.PositionValue(pair);
        r := r.(currentValue := current);
        if current >= target {
          r := r.(result := SkippedEnough, error := Some(AlreadyHeld(current, target)));
          return;
        }
        spend := target - current;
      } else {
        spend := target;
      }

      if spend < MinOrderUsdt {
        r := r.(result := SkippedMinAmount, error := Some(BelowMinimum(spend)));
        return;
      }

      if price == 0.0 {
        r := r.(result := Failed, error := Some(Raised("float division by zero")));
        return;
      }
      var coinAmount := spend / price;
      r := r.(amountUsdt := spend, coinAmount := coinAmount);

      if dryRun {
        r := r.(result := Success, orderId := Some("DRY_RUN"));
        return;
      }

      var reply := trader.PlaceSpotOrder(pair, "buy", coinAmount);
      match reply {
        case Filled(id) =>
          r := r.(result := Success, orderId := Some(id));
        case Refused(e) =>
          r := r.(result := Failed, error := if e.Some? then Some(ExchangeError(e.value)) else None);
        case NoResult =>
          r := r.(result := Failed, error := Some(UnknownError));
        case OrderRaised(m) =>
          r := r.(result := Failed, error := Some(Raised(m)));
      }
    }

    /**
     * `_format_report`: a line per result, in order, and counters in which
     * both skip kinds count as skipped and both failure kinds as failed.
     */
    method FormatReport(results: seq<BatchBuyResult>, totalSpent: real, rebalance: bool) returns (report: Report)
      ensures report.rebalance == rebalance && report.coins == |results| && report.spent == totalSpent
      ensures |report.lines| == |results|
      ensures forall i :: 0 <= i < |results| ==> report.lines[i] == LineFor(results[i], rebalance)
      ensures report.succeeded == CountOf(results, {Success})
      ensures report.skipped == CountOf(results, {SkippedEnough, SkippedMinAmount})
      ensures report.failed == CountOf(results, {PairNotFound, Failed})
      ensures report.succeeded + report.skipped + report.failed == |results|
    {
      var lines: seq<ReportLine> := [];
      var successCount := 0;
      var skipCount := 0;
      var failCount := 0;
      for i := 0 to |results|
        invariant |lines| == i
        invariant forall j :: 0 <= j < i ==> lines[j] == LineFor(results[j], rebalance)
        invariant successCount == CountOf(results[..i], {Success})
        invariant skipCount == CountOf(results[..i], {SkippedEnough, SkippedMinAmount})
        invariant failCount == CountOf(results[..i], {PairNotFound, Failed})
      {
        TallyStep(results, i);
        var r := results[i];
        var coin := ReplaceAll(r.symbol, "_USDT", "");
        var line: ReportLine;
        match r.result {
          case Success =>
            successCount := successCount + 1;
            var action := rebalance && r.currentValue > 0.0;
            line := Bought(coin, action, r.amountUsdt, r.coinAmount, r.price);
          case SkippedEnough =>
            skipCount := skipCount + 1;
            line := Enough(coin, r.currentValue);
          case SkippedMinAmount =>
            skipCount := skipCount + 1;
            line := TooSmall(coin, r.error);
          case PairNotFound =>
            failCount := failCount + 1;
            line := NotListed(coin);
          case Failed =>
            failCount := failCount + 1;
            line := Error(coin, r.error);
        }
        lines := lines + [line];
      }
      assert results[..|results|] == results;
      CountsPartition(results);
      report := Report(rebalance, |results|, lines, successCount, skipCount, failCount, totalSpent);
    }
  }
}
