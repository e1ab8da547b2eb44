/**
 * The position ledger (trading_agent/position_manager.py): a snapshot of
 * the non-USDT holdings valued at the exchange's last price, rebuilt from
 * scratch by `refresh` and read by the rebalance logic.
 */
module Positions {
  import opened Wrappers
  import opened Text
  import opened Exchange

  datatype PositionInfo = PositionInfo(symbol: string, currency: string, amount: real, price: real, valueUsdt: real)

  /** `summary()`: the count, the total value and the positions by value, largest first. */
  datatype PositionSummary = PositionSummary(totalPositions: nat, totalValueUsdt: real, positions: seq<PositionInfo>)

  /** The pair a lookup uses: `_USDT` is appended unless the symbol already contains it somewhere. */
  function PairOf(symbol: string): string {
    if Contains(symbol, "_USDT") then symbol else symbol + "_USDT"
  }

  /** A lookup pair always contains `_USDT`, and normalising it again changes nothing. */
  lemma PairOfIsPair(symbol: string)
    ensures Contains(PairOf(symbol), "_USDT")
    ensures PairOf(PairOf(symbol)) == PairOf(symbol)
  {
    if !Contains(symbol, "_USDT") {
      assert (symbol + "_USDT")[|symbol|..|symbol| + 5] == "_USDT";
      ContainsAt(symbol + "_USDT", "_USDT", |symbol|);
    }
  }

  /**
   * What `refresh` stores for one balance item: nothing for USDT, for a
   * non-positive amount, or when the ticker is empty or raises; otherwise the
   * position valued at the last price.
   */
  function Entry(currency: string, amount: real, reply: TickerReply): Option<PositionInfo> {
    if currency == "USDT" || amount <= 0.0 then None
    else match reply
      case Quote(p) => Some(PositionInfo(currency + "_USDT", currency, amount, p, amount * p))
      case _ => None
  }

  /** Does `refresh` ask the exchange for a price for this balance item? */
  predicate Priced(item: (string, real)) {
    item.0 != "USDT" && item.1 > 0.0
  }

  /** The map `refresh` has built once it has gone through the given balance items. */
  function Snapshot(items: seq<(string, real)>, tickers: map<string, TickerReply>): map<string, PositionInfo>
    decreases |items|
  {
    if items == [] then map[]
    else
      var m := Snapshot(items[..|items| - 1], tickers);
      var item := items[|items| - 1];
      match Entry(item.0, item.1, TickerFor(tickers, item.0 + "_USDT"))
      case Some(e) => m[e.symbol := e]
      case None => m
  }

  /** The pairs `refresh` asks the exchange about, in order. */
  function PricedPairs(items: seq<(string, real)>): seq<string>
    decreases |items|
  {
    if items == [] then []
    else
      var item := items[|items| - 1];
      PricedPairs(items[..|items| - 1]) + (if Priced(item) then [item.0 + "_USDT"] else [])
  }

  /** The map `refresh` leaves behind: empty when the balance request raises. */
  function Refreshed(balances: BalancesReply, tickers: map<string, TickerReply>): map<string, PositionInfo> {
    match balances
    case Balances(items) => Snapshot(items, tickers)
    case BalancesRaised(_) => map[]
  }

  /** The pairs `refresh` asks the exchange about: none when the balance request raises. */
  function RefreshQuotes(balances: BalancesReply): seq<string> {
    match balances
    case Balances(items) => PricedPairs(items)
    case BalancesRaised(_) => []
  }

  predicate DistinctCurrencies(items: seq<(string, real)>) {
    forall i, j :: 0 <= i < j < |items| ==> items[i].0 != items[j].0
  }

  /** `get_position_value`: the stored value of the normalised pair, 0.0 when there is none. */
  function ValueIn(positions: map<string, PositionInfo>, symbol: string): real {
    var pair := PairOf(symbol);
    if pair in positions then positions[pair].valueUsdt else 0.0
  }

  /** `get_position_amount`: the stored coin amount of the normalised pair, 0.0 when there is none. */
  function AmountIn(positions: map<string, PositionInfo>, symbol: string): real {
    var pair := PairOf(symbol);
    if pair in positions then positions[pair].amount else 0.0
  }

  /** Sum of `value_usdt` over a list of positions. */
  function TotalValue(rows: seq<PositionInfo>): real
    decreases |rows|
  {
    if rows == [] then 0.0 else TotalValue(rows[..|rows| - 1]) + rows[|rows| - 1].valueUsdt
  }

  /**
   * A stored entry as `refresh` builds it: keyed by its own pair
   * `currency_USDT`, for a non-USDT currency with a positive amount, carrying
   * the exchange's last price for that pair and valued at amount times price.
   */
  predicate WellFormedEntry(k: string, p: PositionInfo, tickers: map<string, TickerReply>) {
    p.symbol == k && k == p.currency + "_USDT" && p.currency != "USDT" && p.amount > 0.0
    && p.valueUsdt == p.amount * p.price && TickerFor(tickers, k) == Quote(p.price)
  }

  /** One more balance item: its entry, if any, is stored over the map so far, and its pair is quoted if it is priced. */
  lemma SnapshotStep(items: seq<(string, real)>, i: nat, tickers: map<string, TickerReply>)
    requires i < |items|
    ensures Snapshot(items[..i + 1], tickers) ==
      match Entry(items[i].0, items[i].1, TickerFor(tickers, items[i].0 + "_USDT"))
      case Some(e) => Snapshot(items[..i], tickers)[e.symbol := e]
      case None => Snapshot(items[..i], tickers)
    ensures PricedPairs(items[..i + 1]) ==
      PricedPairs(items[..i]) + (if Priced(items[i]) then [items[i].0 + "_USDT"] else [])
  {
    assert items[..i + 1][..i] == items[..i];
  }

  /** Every entry of a snapshot is well formed and comes from one of the balance items. */
  lemma {:induction false} SnapshotEntries(items: seq<(string, real)>, tickers: map<string, TickerReply>)
    ensures forall k :: k in Snapshot(items, tickers) ==>
      WellFormedEntry(k, Snapshot(items, tickers)[k], tickers)
      && (Snapshot(items, tickers)[k].currency, Snapshot(items, tickers)[k].amount) in items
    decreases |items|
  {
    if items != [] {
      var prefix := items[..|items| - 1];
      SnapshotEntries(prefix, tickers);
      var item := items[|items| - 1];
      var m := Snapshot(prefix, tickers);
      var m' := Snapshot(items, tickers);
      forall k | k in m'
        ensures WellFormedEntry(k, m'[k], tickers) && (m'[k].currency, m'[k].amount) in items
      {
        match Entry(item.0, item.1, TickerFor(tickers, item.0 + "_USDT"))
        case Some(e) =>
          if k == e.symbol {
            assert m'[k] == e && (e.currency, e.amount) == item;
          } else {
            assert m'[k] == m[k];
            assert (m[k].currency, m[k].amount) in prefix;
          }
        case None =>
          assert m'[k] == m[k];
          assert (m[k].currency, m[k].amount) in prefix;
      }
    }
  }

  /**
   * Every balance item that has a positive amount, is not USDT and has a
   * quote ends up in the snapshot; when the currencies are distinct, as the
   * keys of a dictionary are, the stored entry is the one built from it.
   */
  lemma {:induction false} SnapshotComplete(items: seq<(string, real)>, tickers: map<string, TickerReply>, i: nat)
    requires i < |items|
    requires Entry(items[i].0, items[i].1, TickerFor(tickers, items[i].0 + "_USDT")).Some?
    ensures items[i].0 + "_USDT" in Snapshot(items, tickers)
    ensures DistinctCurrencies(items) ==>
      Snapshot(items, tickers)[items[i].0 + "_USDT"] == Entry(items[i].0, items[i].1, TickerFor(tickers, items[i].0 + "_USDT")).value
    decreases |items|
  {
    var n := |items| - 1;
    if i < n {
      var prefix := items[..n];
      SnapshotComplete(prefix, tickers, i);
      if DistinctCurrencies(items) {
        assert DistinctCurrencies(prefix);
        SuffixInjective(items[n].0, items[i].0, "_USDT");
      }
    }
  }

  /**
   * A missing or failing quote for one pair leaves only that pair out: two
   * exchanges that quote every other pair alike produce snapshots that agree
   * everywhere else.
   */
  lemma {:induction false} SnapshotIsolatesPair(items: seq<(string, real)>, t1: map<string, TickerReply>, t2: map<string, TickerReply>, pair: string)
    requires forall q :: q != pair ==> TickerFor(t1, q) == TickerFor(t2, q)
    ensures forall k :: k != pair ==>
      (k in Snapshot(items, t1) <==> k in Snapshot(items, t2))
      && (k in Snapshot(items, t1) ==> Snapshot(items, t1)[k] == Snapshot(items, t2)[k])
    decreases |items|
  {
    if items != [] {
      SnapshotIsolatesPair(items[..|items| - 1], t1, t2, pair);
    }
  }

  /** A bare ticker and its `_USDT` pair find the same position; an absent pair is worth 0.0. */
  lemma LookupNormalises(positions: map<string, PositionInfo>, currency: string)
    requires !Contains(currency, "_USDT")
    ensures ValueIn(positions, currency) == ValueIn(positions, currency + "_USDT")
    ensures AmountIn(positions, currency) == AmountIn(positions, currency + "_USDT")
    ensures currency + "_USDT" !in positions ==> ValueIn(positions, currency) == 0.0 && AmountIn(positions, currency) == 0.0
  {
    PairOfIsPair(currency);
    assert PairOf(currency) == currency + "_USDT";
  }

  /**
   * After a refresh over distinct currencies, a held coin that has a quote
   * is worth its amount times its last price, looked up by bare ticker.
   */
  lemma ValueAfterRefresh(items: seq<(string, real)>, tickers: map<string, TickerReply>, i: nat)
    requires i < |items| && DistinctCurrencies(items) && !Contains(items[i].0, "_USDT")
    requires Entry(items[i].0, items[i].1, TickerFor(tickers, items[i].0 + "_USDT")).Some?
    ensures TickerFor(tickers, items[i].0 + "_USDT").Quote?
    ensures ValueIn(Snapshot(items, tickers), items[i].0)
            == items[i].1 * TickerFor(tickers, items[i].0 + "_USDT").last
    ensures AmountIn(Snapshot(items, tickers), items[i].0) == items[i].1
  {
    SnapshotComplete(items, tickers, i);
    LookupNormalises(Snapshot(items, tickers), items[i].0);
  }

  lemma {:induction false} MaxExists(keys: set<string>, positions: map<string, PositionInfo>)
    requires keys != {} && keys <= positions.Keys
    ensures exists k :: k in keys && forall j :: j in keys ==> positions[j].valueUsdt <= positions[k].valueUsdt
    decreases |keys|
  {
    var x :| x in keys;
    if keys != {x} {
      var rest := keys - {x};
      MaxExists(rest, positions);
      var m :| m in rest && forall j :: j in rest ==> positions[j].valueUsdt <= positions[m].valueUsdt;
      if positions[x].valueUsdt <= positions[m].valueUsdt {
        assert forall j :: j in keys ==> positions[j].valueUsdt <= positions[m].valueUsdt;
      } else {
        assert forall j :: j in keys ==> positions[j].valueUsdt <= positions[x].valueUsdt;
      }
    }
  }

  /**
   * Midway through listing positions by value: `rows` holds each key outside
   * `remaining` exactly once, largest value first, and nothing still to be
   * listed is worth more than a row already listed.
   */
  predicate Selecting(positions: map<string, PositionInfo>, rows: seq<PositionInfo>, remaining: set<string>) {
    && remaining <= positions.Keys
    && |rows| + |remaining| == |positions|
    && (forall i :: 0 <= i < |rows| ==>
          rows[i].symbol in positions && rows[i].symbol !in remaining && positions[rows[i].symbol] == rows[i])
    && (forall k :: k in positions && k !in remaining ==> exists i :: 0 <= i < |rows| && rows[i].symbol == k)
    && (forall i, j :: 0 <= i < j < |rows| ==> rows[i].symbol != rows[j].symbol)
    && (forall i, j :: 0 <= i < j < |rows| ==> rows[i].valueUsdt >= rows[j].valueUsdt)
    && (forall i, k :: 0 <= i < |rows| && k in remaining ==> positions[k].valueUsdt <= rows[i].valueUsdt)
  }

  /** Moving a most valuable remaining key to the end of the rows keeps the selection going. */
  lemma SelectStep(positions: map<string, PositionInfo>, rows: seq<PositionInfo>, remaining: set<string>, k: string)
    requires forall j :: j in positions ==> positions[j].symbol == j
    requires Selecting(positions, rows, remaining)
    requires k in remaining && forall j :: j in remaining ==> positions[j].valueUsdt <= positions[k].valueUsdt
    ensures Selecting(positions, rows + [positions[k]], remaining - {k})
  {
    var rows' := rows + [positions[k]];
    assert rows'[..|rows|] == rows;
    SelectStepRows(positions, rows, remaining, k);
    SelectStepCovers(positions, rows, remaining, k);
    SelectStepOrder(positions, rows, remaining, k);
  }

  lemma SelectStepRows(positions: map<string, PositionInfo>, rows: seq<PositionInfo>, remaining: set<string>, k: string)
    requires forall j :: j in positions ==> positions[j].symbol == j
    requires Selecting(positions, rows, remaining) && k in remaining
    ensures |rows + [positions[k]]| + |remaining - {k}| == |positions|
    ensures forall i :: 0 <= i < |rows + [positions[k]]| ==>
      (rows + [positions[k]])[i].symbol in positions && (rows + [positions[k]])[i].symbol !in remaining - {k}
      && positions[(rows + [positions[k]])[i].symbol] == (rows + [positions[k]])[i]
    ensures forall i, j :: 0 <= i < j < |rows + [positions[k]]| ==>
      (rows + [positions[k]])[i].symbol != (rows + [positions[k]])[j].symbol
  {
  }

  lemma SelectStepCovers(positions: map<string, PositionInfo>, rows: seq<PositionInfo>, remaining: set<string>, k: string)
    requires forall j :: j in positions ==> positions[j].symbol == j
    requires Selecting(positions, rows, remaining) && k in remaining
    ensures forall j :: j in positions && j !in remaining - {k} ==>
      exists i :: 0 <= i < |rows + [positions[k]]| && (rows + [positions[k]])[i].symbol == j
  {
    var rows' := rows + [positions[k]];
    forall j | j in positions && j !in remaining - {k}
      ensures exists i :: 0 <= i < |rows'| && rows'[i].symbol == j
    {
      if j == k {
        assert rows'[|rows|].symbol == j;
      } else {
        var i :| 0 <= i < |rows| && rows[i].symbol == j;
        assert rows'[i].symbol == j;
      }
    }
  }

  lemma SelectStepOrder(positions: map<string, PositionInfo>, rows: seq<PositionInfo>, remaining: set<string>, k: string)
    requires Selecting(positions, rows, remaining)
    requires k in remaining && forall j :: j in remaining ==> positions[j].valueUsdt <= positions[k].valueUsdt
    ensures forall i, j :: 0 <= i < j < |rows + [positions[k]]| ==>
      (rows + [positions[k]])[i].valueUsdt >= (rows + [positions[k]])[j].valueUsdt
    ensures forall i, j :: 0 <= i < |rows + [positions[k]]| && j in remaining - {k} ==>
      positions[j].valueUsdt <= (rows + [positions[k]])[i].valueUsdt
  {
  }

  /** With nothing left to select, the rows are every position once, most valuable first. */
  lemma SelectionDone(positions: map<string, PositionInfo>, rows: seq<PositionInfo>)
    requires Selecting(positions, rows, {})
    ensures |rows| == |positions|
    ensures forall i :: 0 <= i < |rows| ==> rows[i].symbol in positions && positions[rows[i].symbol] == rows[i]
    ensures forall k :: k in positions ==> exists i :: 0 <= i < |rows| && rows[i].symbol == k
    ensures forall i, j :: 0 <= i < j < |rows| ==> rows[i].symbol != rows[j].symbol
    ensures forall i, j :: 0 <= i < j < |rows| ==> rows[i].valueUsdt >= rows[j].valueUsdt
  {
  }

  /** A key of largest value among the given ones. */
  method MostValuable(keys: set<string>, positions: map<string, PositionInfo>) returns (k: string)
    requires keys != {} && keys <= positions.Keys
    ensures k in keys && forall j :: j in keys ==> positions[j].valueUsdt <= positions[k].valueUsdt
  {
    MaxExists(keys, positions);
    k :| k in keys && forall j :: j in keys ==> positions[j].valueUsdt <= positions[k].valueUsdt;
  }

  /** Lists the positions by repeatedly taking a most valuable one still left. */
  method ByValue(positions: map<string, PositionInfo>) returns (rows: seq<PositionInfo>)
    requires forall j :: j in positions ==> positions[j].symbol == j
    ensures Selecting(positions, rows, {})
  {
    var remaining := positions.Keys;
    rows := [];
    while remaining != {}
      invariant Selecting(positions, rows, remaining)
      decreases |remaining|
    {
      var k := MostValuable(remaining, positions);
      SelectStep(positions, rows, remaining, k);
      rows := rows + [positions[k]];
      remaining := remaining - {k};
    }
  }

  class PositionManager {
    const trader: Executor
    var positions: map<string, PositionInfo>
    /** How many times `refresh` has run. */
    ghost var refreshes: nat

    /** Every entry is keyed by its own pair. */
    predicate Valid()
      reads this
    {
      forall k :: k in positions ==> positions[k].symbol == k
    }

    constructor (trader: Executor)
      ensures this.trader == trader && positions == map[] && refreshes == 0
      ensures Valid()
    {
      this.trader := trader;
      positions := map[];
      refreshes := 0;
    }

    /**
     * `refresh`: clear the map, then store one entry per priced holding.
     * Nothing from the previous snapshot survives, a failing balance request
     * leaves the map empty, and only the pairs of priced holdings are quoted.
     */
    method Refresh() returns (snapshot: map<string, PositionInfo>)
      modifies this, trader
      ensures positions == Refreshed(trader.balances, trader.tickers) && snapshot == positions
      ensures Valid()
      ensures refreshes == old(refreshes) + 1
      ensures trader.placed == old(trader.placed)
      ensures trader.balances.Balances? ==> trader.queried == old(trader.queried) + PricedPairs(trader.balances.items)
      ensures trader.balances.BalancesRaised? ==> trader.queried == old(trader.queried)
    {
      positions := map[];
      var reply := trader.GetAllBalances();
      ghost var tickers := trader.tickers;
      match reply {
        case BalancesRaised(_) =>
        case Balances(items) =>
          var i := 0;
          while i < |items|
            invariant 0 <= i <= |items|
            invariant positions == Snapshot(items[..i], tickers)
            invariant trader.queried == old(trader.queried) + PricedPairs(items[..i])
            invariant trader.placed == old(trader.placed)
            invariant refreshes == old(refreshes)
          {
            SnapshotStep(items, i, tickers);
            var currency := items[i].0;
            var amount := items[i].1;
            if currency != "USDT" && amount > 0.0 {
              var symbol := currency + "_USDT";
              var ticker := trader.ListTickers(symbol);
              assert old(trader.queried) + PricedPairs(items[..i]) + [symbol]
                == old(trader.queried) + (PricedPairs(items[..i]) + [symbol]);
              match ticker {
                case Quote(price) =>
                  assert TickerFor(tickers, symbol) == Quote(price);
                  assert Entry(currency, amount, Quote(price)).Some?;
                  assert Entry(currency, amount, Quote(price)).value == PositionInfo(symbol, currency, amount, price, amount * price);
                  positions := positions[symbol := PositionInfo(symbol, currency, amount, price, amount * price)];
                case NoTicker =>
                case TickerRaised(_) =>
              }
            }
            i := i + 1;
          }
          assert items[..|items|] == items;
      }
      SnapshotEntries(if reply.Balances? then reply.items else [], tickers);
      refreshes := refreshes + 1;
      snapshot := positions;
    }

    function PositionValue(symbol: string): real
      reads this
    {
      ValueIn(positions, symbol)
    }

    function PositionAmount(symbol: string): real
      reads this
    {
      AmountIn(positions, symbol)
    }

    /** `calculate_additional_amount`: what is missing to reach the target, never negative. */
    function AdditionalAmount(symbol: string, target: real): (r: real)
      reads this
      ensures r >= 0.0 && r >= target - PositionValue(symbol)
      ensures r == 0.0 || r == target - PositionValue(symbol)
      ensures PositionValue(symbol) < target ==> r == target - PositionValue(symbol)
    {
      var additional := target - PositionValue(symbol);
      if 0.0 >= additional then 0.0 else additional
    }

    /**
     * `get_current_price`: the cached price of a held pair without asking the
     * exchange; otherwise the live last price, or None when the ticker is
     * empty or the request raises.
     */
    method GetCurrentPrice(symbol: string) returns (price: Option<real>)
      modifies trader
      ensures trader.placed == old(trader.placed)
      ensures PairOf(symbol) in positions ==>
        price == Some(positions[PairOf(symbol)].price) && trader.queried == old(trader.queried)
      ensures PairOf(symbol) !in positions ==>
        trader.queried == old(trader.queried) + [PairOf(symbol)]
        && price == (match TickerFor(trader.tickers, PairOf(symbol)) case Quote(p) => Some(p) case _ => None)
    {
      var pair := PairOf(symbol);
      if pair in positions {
        return Some(positions[pair].price);
      }
      var ticker := trader.ListTickers(pair);
      match ticker {
        case Quote(p) => price := Some(p);
        case NoTicker => price := None;
        case TickerRaised(_) => price := None;
      }
    }

    /**
     * `summary`: the number of positions, their total value, and every
     * position exactly once, ordered by value from largest to smallest.
     * The map itself is left as it is.
     */
    method Summary() returns (s: PositionSummary)
      requires Valid()
      ensures s.totalPositions == |positions| == |s.positions|
      ensures forall i :: 0 <= i < |s.positions| ==>
        s.positions[i].symbol in positions && positions[s.positions[i].symbol] == s.positions[i]
      ensures forall k :: k in positions ==> exists i :: 0 <= i < |s.positions| && s.positions[i].symbol == k
      ensures forall i, j :: 0 <= i < j < |s.positions| ==> s.positions[i].symbol != s.positions[j].symbol
      ensures forall i, j :: 0 <= i < j < |s.positions| ==> s.positions[i].valueUsdt >= s.positions[j].valueUsdt
      ensures s.totalValueUsdt == TotalValue(s.positions)
    {
      var rows := ByValue(positions);
      SelectionDone(positions, rows);
      s := PositionSummary(|positions|, TotalValue(rows), rows);
    }
  }
}
