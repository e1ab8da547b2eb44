/**
 * The dialog layer in front of the intent parser
 * (trading_agent/chat_handler_mixin.py): a bounded history of messages, a
 * single pending action that expires lazily, and the handlers that turn a
 * parsed intent into either a call to the trading callbacks or a question
 * back to the user.
 *
 * The callbacks (`execute_batch_buy`, `execute_quick_order`) are foreign:
 * a reply that hands over to one of them is `Answer(call)`, naming the call
 * whose text the handler returns. The clock is the parameter `now`.
 */
module ChatHandler {
  import opened Wrappers
  import opened Text
  import opened IntentParser
  import Exchange
  import BatchBuy

  datatype Message = Message(role: string, text: string, intent: Option<ParsedIntent>, timestamp: real)

  /** The pending action dictionary: its `action` name and the batch it describes. */
  datatype Action = Action(kind: string, symbols: seq<string>, amount: real, rebalance: bool)

  datatype Pending = Pending(action: Action, timestamp: real)

  /** A call into one of the trading callbacks. */
  datatype Call =
    | BatchBuyCall(symbols: seq<string>, amount: real, rebalance: bool)
    | QuickOrderCall(side: string, symbol: string, orderAmount: Option<real>)

  /** One line of the rebalance preview: held value, target, what is missing, and the ✅ mark. */
  datatype PreviewRow = PreviewRow(symbol: string, current: real, target: real, toBuy: real, enough: bool)

  /** What a handler answers, in place of the text it formats. */
  datatype Reply =
    | Answer(call: Call)                                          // the text the callback returned
    | Confirmed(action: string)                                   // "✅ Подтверждено: …"
    | Cancelled                                                   // "🚫 Действие отменено"
    | AskConfirmBatch(symbols: seq<string>, amount: real, total: real, rebalance: bool)
    | NoBuyCoin                                                   // no coin given to buy
    | NoSellCoin                                                  // no coin given to sell
    | NoRebalanceCoins                                            // no coin given nor remembered
    | RebalancePreview(rows: seq<PreviewRow>)
    | BalanceLines(values: seq<(string, real)>)
    | UseBalanceCommand                                           // "Используйте /balance …"
    | GridAnswer(text: string)                                    // the grid helper's text

  const Affirmative: set<string> := {"да", "yes", "подтвердить", "confirm", "ок", "ok", "делай", "go"}
  const Negative: set<string> := {"нет", "no", "отмена", "cancel", "стоп", "stop"}

  // ---------------------------------------------------------------------
  // History

  /**
   * `if len(h) > n: h = h[-n:]`, with Python's slice rules: a positive n
   * keeps the newest n, n == 0 keeps everything (h[-0:] is all of h), and a
   * negative n drops the -n oldest.
   */
  function Trimmed<T>(h: seq<T>, n: int): (r: seq<T>)
    ensures |r| <= |h| && r == h[|h| - |r|..]
    ensures n > 0 ==> |r| == (if |h| <= n then |h| else n)
    ensures n == 0 ==> r == h
  {
    if |h| <= n then h
    else if n > 0 then h[|h| - n..]
    else if n == 0 then h
    else if -n >= |h| then []
    else h[-n..]
  }

  /** The symbols a message contributes to the recall: its intent's, if any. */
  function SymbolsIn(m: Message): seq<string> {
    if m.intent.Some? then m.intent.value.symbols else []
  }

  /**
   * The symbols met walking the history from the newest message back,
   * stopping at the first message older than the cutoff.
   */
  function Collected(h: seq<Message>, cutoff: real): seq<string>
    decreases |h|
  {
    if h == [] then []
    else
      var m := h[|h| - 1];
      if m.timestamp < cutoff then []
      else SymbolsIn(m) + Collected(h[..|h| - 1], cutoff)
  }

  /** Every message from index j to the newest is at or after the cutoff. */
  predicate Unbroken(h: seq<Message>, j: nat, cutoff: real) {
    forall k :: j <= k < |h| ==> h[k].timestamp >= cutoff
  }

  /** One step back through the history: the newest message of a prefix, then the rest. */
  lemma CollectedStep(h: seq<Message>, i: nat, cutoff: real)
    requires 0 < i <= |h|
    ensures h[i - 1].timestamp < cutoff ==> Collected(h[..i], cutoff) == []
    ensures h[i - 1].timestamp >= cutoff ==>
      Collected(h[..i], cutoff) == SymbolsIn(h[i - 1]) + Collected(h[..i - 1], cutoff)
  {
    assert h[..i][..i - 1] == h[..i - 1];
  }

  /** A recalled symbol comes from a message in the unbroken run of recent messages. */
  lemma {:induction false} CollectedSound(h: seq<Message>, cutoff: real, x: string) returns (j: nat)
    requires x in Collected(h, cutoff)
    ensures j < |h| && Unbroken(h, j, cutoff) && x in SymbolsIn(h[j])
    decreases |h|
  {
    var m := h[|h| - 1];
    if x in SymbolsIn(m) {
      j := |h| - 1;
    } else {
      var front := h[..|h| - 1];
      j := CollectedSound(front, cutoff, x);
      assert h[j] == front[j];
      forall k | j <= k < |h| ensures h[k].timestamp >= cutoff {
        if k < |h| - 1 { assert h[k] == front[k]; }
      }
    }
  }

  /** Every symbol of a message in the unbroken run of recent messages is recalled. */
  lemma {:induction false} CollectedComplete(h: seq<Message>, cutoff: real, x: string, j: nat)
    requires j < |h| && Unbroken(h, j, cutoff) && x in SymbolsIn(h[j])
    ensures x in Collected(h, cutoff)
    decreases |h|
  {
    var m := h[|h| - 1];
    assert m.timestamp >= cutoff;
    if j < |h| - 1 {
      var front := h[..|h| - 1];
      assert front[j] == h[j];
      assert Unbroken(front, j, cutoff) by {
        forall k | j <= k < |front| ensures front[k].timestamp >= cutoff {
          assert front[k] == h[k];
        }
      }
      CollectedComplete(front, cutoff, x, j);
    }
  }

  /**
   * A symbol is recalled exactly when some message of the unbroken run of
   * recent messages at the end of the history mentions it.
   */
  lemma CollectedWindow(h: seq<Message>, cutoff: real, x: string)
    ensures x in Collected(h, cutoff) <==>
      exists j :: 0 <= j < |h| && Unbroken(h, j, cutoff) && x in SymbolsIn(h[j])
  {
    if x in Collected(h, cutoff) {
      var j := CollectedSound(h, cutoff, x);
    }
    if exists j :: 0 <= j < |h| && Unbroken(h, j, cutoff) && x in SymbolsIn(h[j]) {
      var j :| 0 <= j < |h| && Unbroken(h, j, cutoff) && x in SymbolsIn(h[j]);
      CollectedComplete(h, cutoff, x, j);
    }
  }

  /** `list(dict.fromkeys(ms))`: the first occurrence of each symbol, in order. */
  function Unique(ms: seq<string>): seq<string>
    decreases |ms|
  {
    if ms == [] then []
    else
      var r := Unique(ms[..|ms| - 1]);
      var x := ms[|ms| - 1];
      if x in r then r else r + [x]
  }

  /** The de-duplication keeps every symbol once, in the order of first occurrence. */
  lemma {:induction false} UniqueSpec(ms: seq<string>)
    ensures forall x :: x in Unique(ms) <==> x in ms
    ensures forall i, j :: 0 <= i < j < |Unique(ms)| ==> Unique(ms)[i] != Unique(ms)[j]
    ensures forall i, j :: 0 <= i < j < |Unique(ms)| ==>
      FirstIndex(ms, Unique(ms)[i]) < FirstIndex(ms, Unique(ms)[j])
    decreases |ms|
  {
    if ms != [] {
      var front := ms[..|ms| - 1];
      var x := ms[|ms| - 1];
      UniqueSpec(front);
      var r := Unique(front);
      assert ms == front + [x];
      forall y | y in r
        ensures FirstIndex(ms, y) == FirstIndex(front, y)
      {
        FirstIndexOfPrefix(ms, y, |ms| - 1);
      }
      if x !in r {
        assert x !in front;
        assert FirstIndex(ms, x) == |ms| - 1;
        forall i | 0 <= i < |r|
          ensures FirstIndex(ms, r[i]) < |ms| - 1
        {
          assert r[i] in r;
        }
      }
    }
  }

  /** The newest message whose intent is x, if any. */
  function NewestWith(h: seq<Message>, x: ParsedIntent): (r: Option<nat>)
    ensures r.Some? ==>
      r.value < |h| && h[r.value].intent == Some(x) && forall k :: r.value < k < |h| ==> h[k].intent != Some(x)
    ensures r.None? ==> forall k :: 0 <= k < |h| ==> h[k].intent != Some(x)
    decreases |h|
  {
    if h == [] then None
    else if h[|h| - 1].intent == Some(x) then Some(|h| - 1)
    else NewestWith(h[..|h| - 1], x)
  }

  /**
   * `get_last_intent`: the remembered intent while the newest message that
   * carries it is younger than the TTL; nothing otherwise.
   */
  function LiveIntent(h: seq<Message>, last: Option<ParsedIntent>, now: real, ttl: real): Option<ParsedIntent> {
    match last
    case None => None
    case Some(x) =>
      match NewestWith(h, x)
      case None => None
      case Some(j) => if now - h[j].timestamp < ttl then last else None
  }

  // ---------------------------------------------------------------------
  // The pending action

  /** The pending action as `get_pending_action` sees it: dropped once older than the TTL. */
  function LivePending(p: Option<Pending>, now: real, ttl: real): (r: Option<Pending>)
    ensures r.Some? <==> p.Some? && now - p.value.timestamp <= ttl
    ensures r.Some? ==> r == p
  {
    if p.Some? && now - p.value.timestamp > ttl then None else p
  }

  /** `_check_pending_response`: the answer to a word while an action is pending. */
  function PendingReply(p: Option<Pending>, lower: string, now: real, ttl: real): Option<Reply> {
    match LivePending(p, now, ttl)
    case None => None
    case Some(q) =>
      if lower in Affirmative then
        Some(if q.action.kind == "batch_buy"
             then Answer(BatchBuyCall(q.action.symbols, q.action.amount, q.action.rebalance))
             else Confirmed(q.action.kind))
      else if lower in Negative then Some(Cancelled)
      else None
  }

  /** The pending slot after `_check_pending_response`: cleared by an answer, expired if old. */
  function PendingAfter(p: Option<Pending>, lower: string, now: real, ttl: real): Option<Pending> {
    var live := LivePending(p, now, ttl);
    if live.Some? && (lower in Affirmative || lower in Negative) then None else live
  }

  /**
   * The transitions of the confirmation state machine: a live action and an
   * affirmative word run the stored batch and clear the slot; a negative word
   * clears it without running anything; any other word leaves the live slot
   * as it is and answers nothing; an expired action is dropped whatever the word.
   */
  lemma PendingTransitions(p: Option<Pending>, lower: string, now: real, ttl: real)
    ensures LivePending(p, now, ttl).None? ==>
      PendingReply(p, lower, now, ttl) == None && PendingAfter(p, lower, now, ttl) == None
    ensures LivePending(p, now, ttl).Some? && lower in Affirmative && p.value.action.kind == "batch_buy" ==>
      PendingReply(p, lower, now, ttl)
        == Some(Answer(BatchBuyCall(p.value.action.symbols, p.value.action.amount, p.value.action.rebalance)))
      && PendingAfter(p, lower, now, ttl) == None
    ensures LivePending(p, now, ttl).Some? && lower !in Affirmative && lower in Negative ==>
      PendingReply(p, lower, now, ttl) == Some(Cancelled) && PendingAfter(p, lower, now, ttl) == None
    ensures lower !in Affirmative && lower !in Negative ==>
      PendingReply(p, lower, now, ttl) == None && PendingAfter(p, lower, now, ttl) == LivePending(p, now, ttl)
    ensures PendingReply(p, lower, now, ttl).Some? <==> PendingAfter(p, lower, now, ttl) != LivePending(p, now, ttl)
  {
  }

  /** No word is both a confirmation and a cancellation. */
  lemma AnswersAreDisjoint()
    ensures Affirmative * Negative == {}
  {
    assert forall w :: w in Negative ==> w !in Affirmative;
  }

  // ---------------------------------------------------------------------
  // The handlers' decisions

  /** The amount a buy uses: the parsed one when positive, 10.0 otherwise. */
  function DefaultAmount(target: real): (a: real)
    ensures a > 0.0
    ensures target > 0.0 ==> a == target
  {
    if target > 0.0 then target else 10.0
  }

  /** A batch needs confirmation for more than 3 coins or more than $50 in total. */
  predicate NeedsConfirmation(count: nat, amount: real) {
    count > 3 || amount * count as real > 50.0
  }

  /** The batch an intent asks for, as stored for confirmation. */
  function BatchAction(intent: ParsedIntent): Action {
    Action("batch_buy", intent.symbols, DefaultAmount(intent.targetAmount), intent.rebalance)
  }

  /** The call a batch makes when it runs. */
  function BatchCall(intent: ParsedIntent): Call {
    BatchBuyCall(intent.symbols, DefaultAmount(intent.targetAmount), intent.rebalance)
  }

  /**
   * A batch held for confirmation and then confirmed in time makes the very
   * call it would have made had it run at once.
   */
  lemma ConfirmedBatchRunsAsImmediate(intent: ParsedIntent, stored: real, lower: string, now: real, ttl: real)
    requires lower in Affirmative && now - stored <= ttl
    ensures PendingReply(Some(Pending(BatchAction(intent), stored)), lower, now, ttl) == Some(Answer(BatchCall(intent)))
    ensures PendingAfter(Some(Pending(BatchAction(intent), stored)), lower, now, ttl) == None
  {
  }

  /** Worked cases: four coins, or three at $20, ask first; two at the default $10 run at once. */
  lemma ConfirmationExamples()
    ensures NeedsConfirmation(4, 1.0)
    ensures NeedsConfirmation(3, 20.0)
    ensures !NeedsConfirmation(2, DefaultAmount(0.0))
    ensures !NeedsConfirmation(3, 16.0)
  {
  }

  /** `_handle_single_buy`: a quick buy of the first symbol at the default amount. */
  function SingleBuyReply(intent: ParsedIntent): (r: Reply)
    ensures intent.symbols == [] <==> r == NoBuyCoin
    ensures r != NoBuyCoin ==>
      r.Answer? && r.call.QuickOrderCall? && r.call.side == "buy"
      && r.call.symbol == intent.symbols[0] && r.call.orderAmount.Some? && r.call.orderAmount.value > 0.0
  {
    if intent.symbols == [] then NoBuyCoin
    else Answer(QuickOrderCall("buy", intent.symbols[0], Some(DefaultAmount(intent.targetAmount))))
  }

  /**
   * `_handle_sell`: a quick sell of the first symbol; the amount is left to
   * the order (None) when the text says "all" or names no positive amount.
   */
  function SellReply(intent: ParsedIntent): (r: Reply)
    ensures intent.symbols == [] <==> r == NoSellCoin
    ensures r != NoSellCoin ==>
      r.Answer? && r.call.QuickOrderCall? && r.call.side == "sell"
      && r.call.symbol == intent.symbols[0]
      && (r.call.orderAmount.None? <==> intent.sellAll || intent.targetAmount <= 0.0)
      && (r.call.orderAmount.Some? ==> r.call.orderAmount.value == intent.targetAmount)
  {
    if intent.symbols == [] then NoSellCoin
    else if intent.sellAll then Answer(QuickOrderCall("sell", intent.symbols[0], None))
    else Answer(QuickOrderCall("sell", intent.symbols[0],
                               if intent.targetAmount > 0.0 then Some(intent.targetAmount) else None))
  }

  /** The preview line for one coin held at `current` against a target. */
  function PreviewRowFor(symbol: string, target: real, current: real): PreviewRow {
    PreviewRow(symbol, current, target, if target - current > 0.0 then target - current else 0.0, current >= target)
  }

  /**
   * The preview agrees with the batch it proposes: a coin marked ✅ is one
   * the rebalance batch skips as already funded, and for any other coin the
   * amount shown is exactly what the batch will spend on it.
   */
  lemma PreviewAgreesWithBatch(symbol: string, target: real, current: real, pair: string, dryRun: bool,
                               price: real, respond: Exchange.Order -> Exchange.OrderReply)
    ensures var row := PreviewRowFor(symbol, target, current);
      (row.enough <==> row.toBuy == 0.0)
      && (row.enough ==>
           BatchBuy.Outcome(pair, target, true, dryRun, Exchange.Quote(price), current, respond).result
           == BatchBuy.SkippedEnough)
      && (!row.enough ==> row.toBuy == BatchBuy.Spend(target, true, current) && row.toBuy > 0.0)
  {
  }

  /** The coins a rebalance works on: the intent's own, or else those recalled from the last five minutes. */
  function RebalanceSymbols(intent: ParsedIntent, h: seq<Message>, now: real): seq<string> {
    if intent.symbols != [] then intent.symbols else Unique(Collected(h, now - 300.0))
  }

  // ---------------------------------------------------------------------
  // The dialog state

  class DialogContext {
    var history: seq<Message>
    const maxHistory: int
    const contextTtl: real
    var pending: Option<Pending>
    var lastIntent: Option<ParsedIntent>

    constructor (maxHistory: int, contextTtl: real)
      ensures this.maxHistory == maxHistory && this.contextTtl == contextTtl
      ensures history == [] && pending == None && lastIntent == None
    {
      history := [];
      this.maxHistory := maxHistory;
      this.contextTtl := contextTtl;
      pending := None;
      lastIntent := None;
    }

    /** `add_message`: append, remember a non-empty intent, then drop the oldest beyond the bound. */
    method AddMessage(role: string, text: string, intent: Option<ParsedIntent>, now: real)
      modifies this
      ensures history == Trimmed(old(history) + [Message(role, text, intent, now)], maxHistory)
      ensures lastIntent == (if intent.Some? then intent else old(lastIntent))
      ensures pending == old(pending)
    {
      history := history + [Message(role, text, intent, now)];
      if intent.Some? {
        lastIntent := intent;
      }
      if |history| > maxHistory {
        if maxHistory > 0 {
          history := history[|history| - maxHistory..];
        } else if maxHistory < 0 {
          history := if -maxHistory >= |history| then [] else history[-maxHistory..];
        }
      }
    }

    /**
     * `get_recent_symbols`: walk back from the newest message, stop at the
     * first one older than `now - lookback`, gather the intents' symbols and
     * keep each once.
     */
    method GetRecentSymbols(now: real, lookback: real) returns (symbols: seq<string>)
      ensures symbols == Unique(Collected(history, now - lookback))
    {
      var cutoff := now - lookback;
      var h := history;
      var gathered: seq<string> := [];
      var i := |h|;
      assert h[..i] == h;
      while i > 0
        invariant 0 <= i <= |h|
        invariant Collected(h, cutoff) == gathered + Collected(h[..i], cutoff)
      {
        var msg := h[i - 1];
        CollectedStep(h, i, cutoff);
        if msg.timestamp < cutoff {
          assert gathered + [] == gathered;
          break;
        }
        ghost var rest := Collected(h[..i - 1], cutoff);
        if msg.intent.Some? && msg.intent.value.symbols != [] {
          assert gathered + (SymbolsIn(msg) + rest) == (gathered + msg.intent.value.symbols) + rest;
          gathered := gathered + msg.intent.value.symbols;
        } else {
          assert SymbolsIn(msg) + rest == rest;
        }
        i := i - 1;
        if i == 0 {
          assert h[..0] == [];
        }
      }
      assert Collected(h, cutoff) == gathered;
      symbols := Unique(gathered);
    }

    /** `get_last_intent`: the remembered intent if its newest message is younger than the TTL. */
    method GetLastIntent(now: real) returns (r: Option<ParsedIntent>)
      ensures r == LiveIntent(history, lastIntent, now, contextTtl)
    {
      if lastIntent.None? {
        return None;
      }
      var x := lastIntent.value;
      var i := |history|;
      assert history[..i] == history;
      while i > 0
        invariant 0 <= i <= |history|
        invariant NewestWith(history, x) == NewestWith(history[..i], x)
      {
        var msg := history[i - 1];
        assert history[..i][..i - 1] == history[..i - 1];
        if msg.intent == lastIntent {
          assert NewestWith(history[..i], x) == Some(i - 1);
          if now - msg.timestamp < contextTtl {
            return lastIntent;
          }
          break;
        }
        i := i - 1;
      }
      r := None;
    }

    method SetPendingAction(action: Action, now: real)
      modifies this
      ensures pending == Some(Pending(action, now))
      ensures history == old(history) && lastIntent == old(lastIntent)
    {
      pending := Some(Pending(action, now));
    }

    /** `get_pending_action`: the live action; an expired one is cleared on the way. */
    method GetPendingAction(now: real) returns (r: Option<Pending>)
      modifies this
      ensures r == LivePending(old(pending), now, contextTtl) && pending == r
      ensures history == old(history) && lastIntent == old(lastIntent)
    {
      if pending.None? {
        return None;
      }
      if now - pending.value.timestamp > contextTtl {
        pending := None;
        return None;
      }
      return pending;
    }

    method ClearPending()
      modifies this
      ensures pending == None
      ensures history == old(history) && lastIntent == old(lastIntent)
    {
      pending := None;
    }
  }

  // ---------------------------------------------------------------------
  // The handler

  class SmartChatHandler {
    const context: DialogContext
    /** `get_position_value`: the ledger's value of a pair once positions are refreshed. */
    const positionValue: string -> real
    /** How many times `refresh_positions` was called. */
    ghost var refreshes: nat

    constructor (positionValue: string -> real)
      ensures fresh(context) && this.positionValue == positionValue && refreshes == 0
      ensures context.maxHistory == 20 && context.contextTtl == 300.0
      ensures context.history == [] && context.pending == None && context.lastIntent == None
    {
      context := new DialogContext(20, 300.0);
      this.positionValue := positionValue;
      refreshes := 0;
    }

    /**
     * `process_message`: first the pending confirmation; otherwise parse,
     * record the message, and dispatch on the kind. An unknown kind falls to
     * the grid helper (whose answer is the parameter `grid`) and then to
     * nothing, which the bot hands to its language model.
     */
    method ProcessMessage(text: string, now: real, grid: Option<string>)
      returns (r: Option<Reply>, ghost parsed: Option<ParsedIntent>)
      modifies this, context
      ensures var early := PendingReply(old(context.pending), Lower(Strip(text)), now, context.contextTtl);
        early.Some? ==>
          r == early && parsed == None && context.history == old(context.history)
          && context.lastIntent == old(context.lastIntent)
          && context.pending == PendingAfter(old(context.pending), Lower(Strip(text)), now, context.contextTtl)
          && refreshes == old(refreshes)
      ensures var early := PendingReply(old(context.pending), Lower(Strip(text)), now, context.contextTtl);
        early.None? ==>
          parsed.Some? && parsed.value.rawText == text && parsed.value.symbols == Symbols(Strip(text))
          && parsed.value.intent == KindOf(text)
          && context.history == Trimmed(old(context.history) + [Message("user", text, parsed, now)], context.maxHistory)
          && context.lastIntent == parsed
      ensures var early := PendingReply(old(context.pending), Lower(Strip(text)), now, context.contextTtl);
        early.None? ==>
          context.pending ==
            (if parsed.value.intent == BatchBuy && NeedsConfirmation(|parsed.value.symbols|, DefaultAmount(parsed.value.targetAmount))
             then Some(Pending(BatchAction(parsed.value), now))
             else LivePending(old(context.pending), now, context.contextTtl))
      ensures parsed.Some? && parsed.value.intent == BatchBuy ==>
        var i := parsed.value;
        if NeedsConfirmation(|i.symbols|, DefaultAmount(i.targetAmount)) then
          r.Some? && r.value.AskConfirmBatch? && context.pending == Some(Pending(BatchAction(i), now))
        else
          r == Some(Answer(BatchCall(i)))
      ensures parsed.Some? && parsed.value.intent == SingleBuy ==> r == Some(SingleBuyReply(parsed.value))
      ensures parsed.Some? && parsed.value.intent == Sell ==> r == Some(SellReply(parsed.value))
      ensures parsed.Some? && parsed.value.intent == BalanceCheck ==>
        var symbols := parsed.value.symbols;
        refreshes == old(refreshes) + 1
        && (symbols == [] ==> r == Some(UseBalanceCommand))
        && (symbols != [] ==>
              r.Some? && r.value.BalanceLines? && |r.value.values| == |symbols|
              && forall i :: 0 <= i < |symbols| ==> r.value.values[i] == (symbols[i], positionValue(symbols[i] + "_USDT")))
      ensures parsed.Some? && parsed.value.intent != BalanceCheck ==> refreshes == old(refreshes)
      ensures parsed.Some? && parsed.value.intent == Unknown ==>
        r == (if grid.Some? && grid.value != "" then Some(GridAnswer(grid.value)) else None)
    {
      var normalized := Strip(text);
      var lower := Lower(normalized);

      ghost var before := context.pending;
      var early := CheckPendingResponse(lower, now);
      if early.Some? {
        return early, None;
      }
      PendingTransitions(before, lower, now, context.contextTtl);
      assert context.pending == LivePending(before, now, context.contextTtl);

      var intent := Parse(text);
      context.AddMessage("user", text, Some(intent), now);
      parsed := Some(intent);

      match intent.intent {
        case BatchBuy =>
          var reply := HandleBatchBuy(intent, now);
          return Some(reply), parsed;
        case SingleBuy =>
          return Some(SingleBuyReply(intent)), parsed;
        case Rebalance =>
          assert false;
        case Sell =>
          return Some(SellReply(intent)), parsed;
        case BalanceCheck =>
          var reply := HandleBalanceCheck(intent);
          return Some(reply), parsed;
        case Unknown =>
      }

      if grid.Some? && grid.value != "" {
        return Some(GridAnswer(grid.value)), parsed;
      }
      return None, parsed;
    }

    /** `_check_pending_response` on the stripped, lower-cased text. */
    method CheckPendingResponse(lower: string, now: real) returns (r: Option<Reply>)
      modifies context
      ensures r == PendingReply(old(context.pending), lower, now, context.contextTtl)
      ensures context.pending == PendingAfter(old(context.pending), lower, now, context.contextTtl)
      ensures context.history == old(context.history) && context.lastIntent == old(context.lastIntent)
    {
      var pending := context.GetPendingAction(now);
      if pending.None? {
        return None;
      }
      if lower in Affirmative {
        var action := pending.value.action;
        context.ClearPending();
        if action.kind == "batch_buy" {
          return Some(Answer(BatchBuyCall(action.symbols, action.amount, action.rebalance)));
        }
        return Some(Confirmed(action.kind));
      }
      if lower in Negative {
        context.ClearPending();
        return Some(Cancelled);
      }
      return None;
    }

    /** `_handle_batch_buy`: run small batches at once, hold larger ones for confirmation. */
    method HandleBatchBuy(intent: ParsedIntent, now: real) returns (r: Reply)
      modifies context
      ensures NeedsConfirmation(|intent.symbols|, DefaultAmount(intent.targetAmount)) ==>
        r == AskConfirmBatch(intent.symbols, DefaultAmount(intent.targetAmount),
                             DefaultAmount(intent.targetAmount) * |intent.symbols| as real, intent.rebalance)
        && context.pending == Some(Pending(BatchAction(intent), now))
      ensures !NeedsConfirmation(|intent.symbols|, DefaultAmount(intent.targetAmount)) ==>
        r == Answer(BatchCall(intent)) && context.pending == old(context.pending)
      ensures context.history == old(context.history) && context.lastIntent == old(context.lastIntent)
    {
      var symbols := intent.symbols;
      var amount := DefaultAmount(intent.targetAmount);
      var total := amount * |symbols| as real;
      if NeedsConfirmation(|symbols|, amount) {
        context.SetPendingAction(Action("batch_buy", symbols, amount, intent.rebalance), now);
        return AskConfirmBatch(symbols, amount, total, intent.rebalance);
      }
      return Answer(BatchBuyCall(symbols, amount, intent.rebalance));
    }

    /**
     * `_handle_rebalance`: the coins named, or else those recalled; refresh
     * the ledger, preview each coin against the target, and always hold the
     * batch (in rebalance mode) for confirmation rather than run it.
     */
    method HandleRebalance(intent: ParsedIntent, now: real) returns (r: Reply)
      modifies this, context
      ensures context.history == old(context.history) && context.lastIntent == old(context.lastIntent)
      ensures var symbols := RebalanceSymbols(intent, old(context.history), now);
        symbols == [] ==>
          r == NoRebalanceCoins && context.pending == old(context.pending) && refreshes == old(refreshes)
      ensures var symbols := RebalanceSymbols(intent, old(context.history), now);
        var amount := DefaultAmount(intent.targetAmount);
        symbols != [] ==>
          r.RebalancePreview? && |r.rows| == |symbols|
          && (forall i :: 0 <= i < |symbols| ==>
                r.rows[i] == PreviewRowFor(symbols[i], amount, positionValue(symbols[i] + "_USDT")))
          && context.pending == Some(Pending(Action("batch_buy", symbols, amount, true), now))
          && refreshes == old(refreshes) + 1
    {
      var symbols := intent.symbols;
      if symbols == [] {
        symbols := context.GetRecentSymbols(now, 300.0);
      }
      if symbols == [] {
        return NoRebalanceCoins;
      }
      var amount := DefaultAmount(intent.targetAmount);
      refreshes := refreshes + 1;

      var rows: seq<PreviewRow> := [];
      for i := 0 to |symbols|
        invariant |rows| == i
        invariant forall j :: 0 <= j < i ==> rows[j] == PreviewRowFor(symbols[j], amount, positionValue(symbols[j] + "_USDT"))
      {
        var current := positionValue(symbols[i] + "_USDT");
        var toBuy := if amount - current > 0.0 then amount - current else 0.0;
        rows := rows + [PreviewRow(symbols[i], current, amount, toBuy, current >= amount)];
      }
      context.SetPendingAction(Action("batch_buy", symbols, amount, true), now);
      r := RebalancePreview(rows);
    }

    /** `_handle_balance_check`: refresh, then the value of each named coin, or the hint to use /balance. */
    method HandleBalanceCheck(intent: ParsedIntent) returns (r: Reply)
      modifies this
      ensures refreshes == old(refreshes) + 1
      ensures intent.symbols == [] ==> r == UseBalanceCommand
      ensures intent.symbols != [] ==>
        r.BalanceLines? && |r.values| == |intent.symbols|
        && forall i :: 0 <= i < |intent.symbols| ==>
             r.values[i] == (intent.symbols[i], positionValue(intent.symbols[i] + "_USDT"))
    {
      refreshes := refreshes + 1;
      if intent.symbols == [] {
        return UseBalanceCommand;
      }
      var rows: seq<(string, real)> := [];
      for i := 0 to |intent.symbols|
        invariant |rows| == i
        invariant forall j :: 0 <= j < i ==> rows[j] == (intent.symbols[j], positionValue(intent.symbols[j] + "_USDT"))
      {
        rows := rows + [(intent.symbols[i], positionValue(intent.symbols[i] + "_USDT"))];
      }
      r := BalanceLines(rows);
    }
  }
}
