# Trading agent core, modelled in Dafny

This project models the conversational trading core of a Telegram trading agent
for the Gate.io spot exchange. A user's chat message goes through these stages:

1. **Bot front end** (`Bot`, `telegram_bot.dfy`). Exact quick-command words
   ("старт", "да", "отмена", …) are answered first. The message is then offered
   to the dialog layer. After that come the later fallbacks, and last an
   acknowledgement.
   - Every turn is recorded in a history bounded at 400 entries.
   - Long replies are split into 3900-character Telegram messages.
   - A grid request ("поставь 5 монет по 10$") is read into risk, days,
     capital, count and per-coin amount.
2. **Dialog layer** (`ChatHandler`, `chat_handler.dfy`). A `DialogContext`
   keeps:
   - a bounded history of parsed messages;
   - the last intent, which expires after a TTL;
   - one pending action that waits for "да"/"нет".

   `SmartChatHandler` routes each parsed intent:
   - a batch buy is held for confirmation when it has more than three coins or
     costs more than $50;
   - a rebalance produces a preview. `HandleRebalance` is reachable only by a
     direct call, because `parse` never yields `REBALANCE`;
   - a single buy or a sell becomes a quick order;
   - a balance check refreshes the positions.
3. **Intent parser** (`IntentParser`, `intent_parser.dfy`). Keyword regexes
   classify the message. Symbols are the upper-case words of 2–10 letters that
   are not stop words, de-duplicated in order of first appearance. The amount
   comes from the first of five amount regexes that matches. The `Patterns`
   module (`patterns.dfy`) is a small model of the regular-expression search
   these rely on. The `Text` module (`text.dfy`) models the `str` operations.
4. **Position ledger** (`Positions`, `position_manager.dfy`).
   - It rebuilds a snapshot of the non-USDT holdings, valued at the exchange's
     last price.
   - It answers value, amount and price lookups.
   - It lists the positions by value, largest first.
5. **Batch buyer** (`BatchBuy`, `smart_batch_buy.dfy`). Each coin gets one buy
   order. It is sized at the target, or in rebalance mode at the missing part.
   The batch skips coins that are already funded and orders under the $3
   exchange minimum. Every failure stays confined to its own coin. The counts
   in the report partition the results.
6. **Quick orders and capital** (`Strategy`, `strategy_core.dfy`).
   `execute_quick_order` resolves the pair and the price, then sizes the order:
   - a buy uses the given amount, or by default the smaller of $10 and 20 % of
     capital;
   - a sell sells the whole free balance.

   `get_capital` prefers a positive exchange USDT balance over the configured
   capital.

The exchange client is `Exchange.Executor` (`exchange.dfy`):
- its answers are fixed when it is built;
- it logs the pairs it is asked to quote and the orders it is sent.

Methods that talk to the exchange therefore state exactly which calls they made,
in order. `wrappers.dfy` holds the `Option` type.

Quirks of the code that the model keeps:
- the intent `REBALANCE` is never produced by `parse`. The class comment at
  `trading_agent/intent_parser.py:51-52` promises it for "докупи ETH до 50
  долларов", but lines 141-154 turn a rebalance into a batch, single or
  unknown intent with the `rebalance` flag set;
- the `days` of a grid request is always 7. It is set at
  `trading_agent/telegram_bot.py:302-307` and never updated afterwards;
- the history bound of `DialogContext` is used as Python's `history[-n:]`
  (`trading_agent/chat_handler_mixin.py:53-55`), so a bound of 0 keeps
  everything.

Behaviours of the code that the model makes explicit (each is proved):
- `Bot.PendingAnswerPreempted`: every word the dialog layer accepts as the
  answer to its pending action is also a quick command of the bot. The bot
  answers these words before the dialog layer sees them. A batch held for
  confirmation therefore cannot be confirmed or cancelled through the bot's
  chat path.
- `IntentParser.SellAllXrpExample`: "sell all XRP" is a sell of the symbols
  `[SELL, ALL, XRP]`, and `sellAll` is false. Only the Russian "все"/"всё"
  set it, and the English command words pass the stop-word filter.
- `IntentParser.RebalanceWordsAreBalanceChecks`: any text containing
  "rebalance" or "ребаланс" also matches a balance keyword. Such a text is
  classified as a balance check, never as a buy.
- `IntentParser.OnlyLatinStopWordsApply`: symbols are runs of `A`–`Z`, so of
  the stop words only `USDT` and `USD` can ever be filtered. The Cyrillic stop
  words never meet a candidate.
- `Bot.FirstNumberIsTheAmount`: the grid amount is the first number in the
  text, even when that number counts coins. "поставь 15 монет по 10$" reads as
  15 coins at $15 each, $75 in all.
- `Strategy.QuickPairNormal`: the quick order keeps a symbol that already
  contains `_USDT` anywhere as it is. The batch buyer removes every `_USDT` and
  appends one. The two agree only on symbols without `_USDT`.

## Model

| member | source | states |
|---|---|---|
| IntentParser.Parse | trading_agent/intent_parser.py:99-165 | the intent is `KindOf(text)`: keyword priority balance > sell > buy/rebalance, and buy/rebalance yields batch, single or unknown by the number of symbols, so REBALANCE is never produced; `rebalance` iff a rebalance keyword fires without balance or sell; `sellAll` iff a sell says "все"/"всё"; symbols are those of the stripped text and the amount is that of the lower-cased text and non-negative; the confidence is given in closed form (0.8, 0.85, 0.9, 0.85, 0.3 or 0.0 by kind, plus 0.05 for a rebalance and 0.1 for symbols with an amount, each capped at 1.0), lies in [0,1] and is at most 0.35 exactly when the intent is unknown |
| IntentParser.ExtractSymbols | trading_agent/intent_parser.py:174-197 | the symbols are upper-case 2–10 letter words found in the upper-cased text, none a stop word, without duplicates, equal to the specification `Symbols` |
| IntentParser.KeepNewSpec | trading_agent/intent_parser.py:188-197 | the filter keeps exactly the candidates that are not stop words, each once, in the order of their first occurrence |
| IntentParser.TickersFromShape | trading_agent/intent_parser.py:185-186 | every candidate the word scan finds is a 2–10 letter upper-case word that occurs in the text |
| IntentParser.WordTicker | trading_agent/intent_parser.py:185-186 | a space-delimited upper-case word of 2–10 letters is found by the scan, followed by the candidates after it |
| IntentParser.OnlyLatinStopWordsApply | trading_agent/intent_parser.py:89-94 | a stop word that the scan can produce is USDT or USD |
| IntentParser.AmountFromNonNegative | trading_agent/intent_parser.py:199-218 | the extracted amount, from whichever pattern yields it (0.0 when none does), is never negative |
| IntentParser.NumberShape | trading_agent/intent_parser.py:80-86 | a number matched by `\d+(?:[.,]\d+)?` becomes a valid float once "," is replaced by ".", so the `ValueError` branch never applies |
| IntentParser.CaptureIsDecimal | trading_agent/intent_parser.py:209-216 | every capture of an amount pattern parses as a float |
| IntentParser.IsTradingCommand | trading_agent/intent_parser.py:220-245 | true iff a buy or sell keyword matches, or the text has a symbol and a positive amount |
| IntentParser.RebalanceWordsAreBalanceChecks | trading_agent/intent_parser.py:68-77 | a text containing "rebalance" or "ребаланс" matches a balance keyword too |
| IntentParser.SellAllXrpExample | trading_agent/intent_parser.py:136-139 | "sell all XRP" is a sell, not a balance check, of [SELL, ALL, XRP], with `sellAll` false |
| IntentParser.DecimalNonNegative | trading_agent/intent_parser.py:212-214 | a parsed unsigned decimal is non-negative |
| Positions.PairOfIsPair | trading_agent/position_manager.py:96-111 | the lookup pair contains `_USDT` and normalising it twice changes nothing |
| Positions.PositionManager.constructor | trading_agent/position_manager.py:40-48 | the ledger starts empty and bound to its trader |
| Positions.PositionManager.Refresh | trading_agent/position_manager.py:50-94 | the positions become the snapshot of the balances (empty when the balance request raises), the exchange is queried for exactly the priced pairs in order, and no order is placed |
| Positions.SnapshotEntries | trading_agent/position_manager.py:58-86 | every stored entry is keyed by its own `currency_USDT` pair, has a positive non-USDT amount, the exchange's last price and value amount × price, and comes from a balance item |
| Positions.SnapshotComplete | trading_agent/position_manager.py:63-82 | every balance item with a quoted price is stored, and with distinct currencies it is stored exactly as built |
| Positions.SnapshotIsolatesPair | trading_agent/position_manager.py:67-86 | changing the quote of one pair changes no other stored entry |
| Positions.LookupNormalises | trading_agent/position_manager.py:96-127 | looking up "BTC" and "BTC_USDT" gives the same value and amount, and 0.0 for a pair not held |
| Positions.ValueAfterRefresh | trading_agent/position_manager.py:50-111 | after a refresh the value of a held coin is its amount times its last price and its amount is the balance |
| Positions.PositionManager.AdditionalAmount | trading_agent/position_manager.py:129-142 | the amount to add is the gap to the target when the position is below it, else 0.0, and never negative |
| Positions.PositionManager.GetCurrentPrice | trading_agent/position_manager.py:144-169 | a held pair answers its stored price without asking the exchange; otherwise the exchange is asked once and its last price, or None, is returned |
| Positions.MostValuable | trading_agent/position_manager.py:190-194 | the chosen key is in the set and no other key's value exceeds it |
| Positions.SelectionDone | trading_agent/position_manager.py:183-195 | a completed selection lists every position exactly once, in non-increasing order of value |
| Positions.PositionManager.Summary | trading_agent/position_manager.py:171-196 | the summary counts the positions, lists each exactly once by value largest first, and totals their values |
| BatchBuy.FullPairIsUsdtPair | trading_agent/smart_batch_buy.py:137-139 | the pair bought always ends in `_USDT` |
| BatchBuy.SmartBatchBuy.Execute | trading_agent/smart_batch_buy.py:75-116 | positions are refreshed once exactly in rebalance mode; there is one result per symbol, each the outcome of that symbol; the orders sent are those planned for the symbols in order; the pairs quoted are those of the refresh, then one per symbol in order; the report has the results' lines in order, totals the spent amount, and its success, skipped and failed counts are the numbers of results of those kinds and add up to the number of coins |
| BatchBuy.SmartBatchBuy.BuyEach | trading_agent/smart_batch_buy.py:101-111 | the results and orders are those of the symbols in order, one pair is quoted per symbol in order, and the total is the sum spent on successes |
| BatchBuy.SmartBatchBuy.ProcessSymbol | trading_agent/smart_batch_buy.py:118-206 | the result is the outcome of the symbol, the exchange is quoted once for its pair, and at most its planned order is sent |
| BatchBuy.OutcomesOfIndex | trading_agent/smart_batch_buy.py:101-108 | the i-th result is the outcome of the i-th symbol |
| BatchBuy.MissingPairOrdersNothing | trading_agent/smart_batch_buy.py:148-152 | an unlisted pair is PAIR_NOT_FOUND with no order |
| BatchBuy.RebalanceSpendsTheGap | trading_agent/smart_batch_buy.py:157-169 | in rebalance mode a funded coin is SKIPPED_ENOUGH with nothing spent or ordered, and a success spends exactly the gap to the target |
| BatchBuy.BelowMinimumOrdersNothing | trading_agent/smart_batch_buy.py:171-175 | an amount under $3 is SKIPPED_MIN_AMOUNT with that amount in the error, and no order |
| BatchBuy.DryRunOrdersNothing | trading_agent/smart_batch_buy.py:182-186 | a dry run sends no order and a success carries the id DRY_RUN |
| BatchBuy.SuccessIsSized | trading_agent/smart_batch_buy.py:154-196 | a success had a non-zero last price, spent at least $3 at that price for amount/price coins, and, unless dry, the exchange filled the order |
| BatchBuy.FailuresAreCaptured | trading_agent/smart_batch_buy.py:188-204 | a raising ticker, a zero price and a refused order each give FAILED with their error |
| BatchBuy.RebalanceExamples | trading_agent/smart_batch_buy.py:157-192 | concrete targets: $12 held of $10 is skipped, a $2 gap is below the minimum, $4 held of $10 buys $6 |
| BatchBuy.DryRunBatchOrdersNothing | trading_agent/smart_batch_buy.py:75-116 | a dry-run batch sends no orders at all |
| BatchBuy.SmartBatchBuy.FormatReport | trading_agent/smart_batch_buy.py:208-272 | one line per result in order; success, skipped and failed counts are the numbers of results of those kinds and add up to the number of results |
| BatchBuy.CountsPartition | trading_agent/smart_batch_buy.py:233-262 | every result is counted in exactly one of success, skipped and failed |
| BatchBuy.SpentOnlyOnSuccess | trading_agent/smart_batch_buy.py:109-111 | the total spent is non-negative and zero when nothing succeeded |
| ChatHandler.Trimmed | trading_agent/chat_handler_mixin.py:53-55 | the history keeps its newest n messages, or all of them when n is 0 |
| ChatHandler.DialogContext.constructor | trading_agent/chat_handler_mixin.py:27-39 | a new context is empty with the given bound and TTL |
| ChatHandler.DialogContext.AddMessage | trading_agent/chat_handler_mixin.py:41-55 | the message is appended and the history trimmed; an intent becomes the last intent; the pending action is untouched |
| ChatHandler.DialogContext.GetRecentSymbols | trading_agent/chat_handler_mixin.py:57-74 | the symbols of the unbroken run of recent messages, newest first, each once |
| ChatHandler.CollectedWindow | trading_agent/chat_handler_mixin.py:57-74 | a symbol is collected iff some message carrying it is newer than the cutoff along with every later message |
| ChatHandler.UniqueSpec | trading_agent/chat_handler_mixin.py:74 | de-duplication keeps each symbol once, in order of first appearance |
| ChatHandler.DialogContext.GetLastIntent | trading_agent/chat_handler_mixin.py:76-88 | the last intent, only while the newest message carrying it is younger than the TTL |
| ChatHandler.NewestWith | trading_agent/chat_handler_mixin.py:82-86 | the index found is the newest message carrying the intent, or none carries it |
| ChatHandler.DialogContext.SetPendingAction | trading_agent/chat_handler_mixin.py:90-95 | the pending action is stored with its time and nothing else changes |
| ChatHandler.DialogContext.GetPendingAction | trading_agent/chat_handler_mixin.py:97-106 | the pending action while it is within the TTL; an expired one is dropped |
| ChatHandler.LivePending | trading_agent/chat_handler_mixin.py:97-106 | a pending action is live iff it exists and is no older than the TTL |
| ChatHandler.DialogContext.ClearPending | trading_agent/chat_handler_mixin.py:108-111 | the pending slot is emptied and nothing else changes |
| ChatHandler.SmartChatHandler.constructor | trading_agent/chat_handler_mixin.py:127-157 | a new handler has a fresh context of 20 messages and a 300-second TTL |
| ChatHandler.SmartChatHandler.ProcessMessage | trading_agent/chat_handler_mixin.py:159-203 | an answer to a live pending action is returned without recording the message or changing the last intent, and the pending slot moves as the answer says; otherwise the parsed message (of kind `KindOf(text)`) is recorded as the last intent, the pending slot is a new held batch or the old one while live, and the intent is routed: batch held for confirmation or run, single buy and sell as quick orders, balance check after one refresh with the value of each named symbol (or the hint to use /balance), unknown to the grid helper |
| ChatHandler.SmartChatHandler.CheckPendingResponse | trading_agent/chat_handler_mixin.py:205-230 | the reply and the new pending slot are those of the confirmation state machine |
| ChatHandler.PendingTransitions | trading_agent/chat_handler_mixin.py:205-230 | yes runs the stored batch and clears, no cancels and clears, any other word keeps a live action and answers nothing, an expired action is dropped |
| ChatHandler.AnswersAreDisjoint | trading_agent/chat_handler_mixin.py:213-228 | no word is both an affirmative and a negative answer |
| ChatHandler.SmartChatHandler.HandleBatchBuy | trading_agent/chat_handler_mixin.py:232-259 | more than three coins or more than $50 in all stores the batch and asks; otherwise the batch runs at once |
| ChatHandler.DefaultAmount | trading_agent/chat_handler_mixin.py:235 | the amount per coin is the parsed amount when positive, else the default $10 |
| ChatHandler.ConfirmedBatchRunsAsImmediate | trading_agent/chat_handler_mixin.py:212-259 | a batch confirmed in time makes the same call it would have made at once, and the slot is cleared |
| ChatHandler.ConfirmationExamples | trading_agent/chat_handler_mixin.py:235-239 | four coins need confirmation; three at $20 too; two at the default and three at $16 do not |
| ChatHandler.SingleBuyReply | trading_agent/chat_handler_mixin.py:261-269 | no symbol asks which coin; otherwise a buy quick order of the first symbol at a positive amount |
| ChatHandler.SellReply | trading_agent/chat_handler_mixin.py:309-320 | no symbol asks which coin; otherwise a sell quick order of the first symbol, of everything when `sellAll` or no amount, else of the amount |
| ChatHandler.SmartChatHandler.HandleRebalance | trading_agent/chat_handler_mixin.py:271-307 | without symbols it asks for coins; otherwise one preview row per coin from the refreshed values and a pending rebalance batch |
| ChatHandler.PreviewAgreesWithBatch | trading_agent/chat_handler_mixin.py:289-305 | a coin shown as funded is one the rebalance batch skips, and the amount shown for any other is what the batch spends |
| ChatHandler.SmartChatHandler.HandleBalanceCheck | trading_agent/chat_handler_mixin.py:322-335 | after a refresh, one value line per requested symbol, or the hint to use /balance |
| Strategy.QuickPairNormal | trading_agent/strategy_core.py:104-106 | the pair contains `_USDT`, is stable under renormalising, and matches the batch buyer's pair for symbols without `_USDT` |
| Strategy.QuickAmount | trading_agent/strategy_core.py:116-119 | the given amount, or the smaller of $10 and 20 % of capital |
| Strategy.BalanceOf | trading_agent/strategy_core.py:130-132 | the balance of the coin listed, 0.0 when it is not listed |
| Strategy.NoPriceNoOrder | trading_agent/strategy_core.py:108-114 | without a last price no order is sent and the answer is pair-not-found or a price error |
| Strategy.MinimumBeforeSide | trading_agent/strategy_core.py:116-121 | an amount under the minimum is refused before the side is looked at |
| Strategy.SmallCapitalDefaultIsTooSmall | trading_agent/strategy_core.py:116-121 | with capital under $15 the default amount is under the minimum |
| Strategy.BuyIsSizedByAmount | trading_agent/strategy_core.py:122-128 | a buy orders amount / price coins of the pair |
| Strategy.SellIgnoresAmount | trading_agent/strategy_core.py:129-137 | a sell orders the whole positive free balance of the coin whatever the amount |
| Strategy.UnknownSideOrdersNothing | trading_agent/strategy_core.py:139 | a side other than buy or sell sends nothing and names the side |
| Strategy.CapitalFrom | trading_agent/strategy_core.py:82-91 | a positive USDT balance is the capital, otherwise the configured capital |
| Strategy.TradingAgent.GetCapital | trading_agent/strategy_core.py:82-91 | the capital is positive or the configured one |
| Strategy.TradingAgent.ExecuteQuickOrder | trading_agent/strategy_core.py:99-141 | without a trader nothing happens; otherwise the pair is quoted once, at most the planned order is sent, and the answer is the specified outcome |
| Bot.QuickRoute | trading_agent/telegram_bot.py:503-511 | start words start a sprint, then confirm words confirm, then cancel words cancel; anything else is not a quick command |
| Bot.PendingWordsAreQuickCommands | trading_agent/telegram_bot.py:506-511 | every pending-answer word of the dialog layer is a quick command, "go" starting a sprint |
| Bot.PendingAnswerPreempted | trading_agent/telegram_bot.py:503-519 | whenever the dialog layer would answer a pending action, the bot has routed the word as a quick command first |
| Bot.Pushed | trading_agent/telegram_bot.py:497-499 | appending below the bound keeps every entry; otherwise it keeps the history within its bound, drops at most the oldest entry, and ends with the new entry |
| Bot.TelegramBot.constructor | trading_agent/telegram_bot.py:212 | a new bot has an empty history bounded at 400 |
| Bot.TelegramBot.ChatTurn | trading_agent/telegram_bot.py:492-584 | the message and the reply are recorded within the bound; a quick command answers without touching the dialog layer; otherwise the reply is exactly the dialog layer's answer when it gives one, else the later steps', else an acknowledgement of the first 50 characters; the dialog answer is the pending-action answer when the message was not parsed, and the grid helper's (or none) for an unknown intent |
| Bot.SplitMessage | trading_agent/telegram_bot.py:586-601 | the parts sent are the specified chunks |
| Bot.ChunksJoin | trading_agent/telegram_bot.py:593-599 | the parts joined give back the text |
| Bot.ChunksSizes | trading_agent/telegram_bot.py:586-599 | each part fits in 3900 characters, all but the last are full, and no part of a non-empty text is empty |
| Bot.ChunksCount | trading_agent/telegram_bot.py:586-599 | a non-empty text is sent as ⌈length / 3900⌉ messages |
| Bot.ParseGridCommand | trading_agent/telegram_bot.py:282-344 | a grid request iff a grid keyword matches and the text has an action word, or "по" and a number; its days are 7 and its risk follows the word priority |
| Bot.GridRisk | trading_agent/telegram_bot.py:325-330 | HIGH words win over LOW words, which win over MEDIUM; MEDIUM by default |
| Bot.GridAmountFound | trading_agent/telegram_bot.py:309-314 | an amount is read iff the text has a digit |
| Bot.GridMoneyRule | trading_agent/telegram_bot.py:302-323 | an amount up to $20 is per coin with five times it as capital, a larger one is the capital, none leaves $50; the count is the one written, or 5 when none is |
| Bot.GridBudget | trading_agent/telegram_bot.py:309-319 | the capital is non-negative; a per-coin amount is at most $20 with capital five times it; otherwise the capital exceeds $20 |
| Bot.GridCountSkips | trading_agent/telegram_bot.py:321-323 | the count search passes over non-digits |
| Bot.FirstNumberIsTheAmount | trading_agent/telegram_bot.py:309-323 | "поставь 15 монет по 10$" is 15 coins at $15 each, $75 in all |

## Left out

- Telegram I/O, logging, persistence (`_persist_history`, `_load_history`)
  and the sending of messages are not modelled. `SplitMessage` returns the
  parts it would send.
- Time is a parameter `now`, and one value is used for a whole call.
- The exchange is a scripted `Executor`. Its balances do not move after an
  order. Order quantities are reals rather than `str(float)`.
- The later chat steps are the parameter `later` of `ChatTurn`. These are the
  regex buy/sell fallback, the grid helper and the language model
  (`telegram_bot.py` 521-575).
- The dialog layer's `_check_grid_command` is the parameter `grid` of
  `ProcessMessage`.
- `start_sprint`, `confirm_order` and `cancel_order` are named by the
  `QuickCommand` they select, not by their texts.
- Bot.TelegramBot.ChatTurn: an exception inside the dialog layer is not
  modelled, because the model's dialog layer cannot raise.
- ChatHandler.SmartChatHandler: the position value it reports is a function
  given at construction. It is not tied to the `Positions` ledger.
- Reply texts, emoji and float formatting are data constructors rather than
  strings. Examples are `Report`, `Reply` and `BotReply`.
- `format_parsed`, `format_summary` and `integrate_smart_batch_buy` are not
  part of this model. They only format text and wire callbacks together.
- `re.IGNORECASE` is applied to text that is already lower-cased. The model
  matches the lower-case patterns directly.
- Case mapping and `\w` cover ASCII and Cyrillic U+0400–U+045F only.
  `strip`, `\s` and `\d` cover ASCII only: Python's `\s` matches U+00A0, so
  it reads "купи BTC на\u00a010" as 10.0, where the model reads 0.0.
- Positions.PositionManager.Summary: positions of equal value may be listed in
  either order. Python's stable sort keeps the order of the dictionary.
